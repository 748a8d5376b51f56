/** What a person decided is what a commit writes, stated on the decisions and the written rows alone. */
module StructuredValues {
  import opened Options
  import opened Texts
  import opened StructuredModel
  import opened StructuredReview
  import opened StructuredExecution
  import opened StructuredSteps
  import opened StructuredReviewProofs
  import opened StructuredOutcome

  // ---- what a decided item stands for

  /** The field object a confirmed stage or process item stands for: the interpretation, or the edit. */
  predicate StandsForFields(i: Item, v: Fields) {
    || (i.decision == ConfirmedProposal && v == i.interpretation.fields)
    || (i.decision == ConfirmedEdited && i.decisionSnapshot == EditedFields(v))
  }

  /** The value a confirmed metric item stands for. */
  predicate StandsForValue(i: Item, c: Cell) {
    || (i.decision == ConfirmedProposal && c == i.interpretation.value)
    || (i.decision == ConfirmedEdited && i.decisionSnapshot == EditedValue(c))
  }

  /** What a confirmation or an edit asks to be written for a stage or a process. */
  predicate AsksFields(w: World, i: Item, action: ReviewAction, v: Fields) {
    match action
    case Reject => false
    case Confirm(_) => v == i.interpretation.fields
    case Edit(_, fields, _) => w.normalizeFields(i.kind, fields) == Some(v)
  }

  /** What a confirmation or an edit asks to be written to a metric field. */
  predicate AsksValue(w: World, i: Item, action: ReviewAction, c: Cell) {
    match action
    case Reject => false
    case Confirm(_) => c == i.interpretation.value
    case Edit(value, _, _) => w.normalizeMetric(i.targetPath, value) == Some(c)
  }

  // ---- what is written

  /** What the stage form is given for a field object: the sequence, the stripped name, all else as it is or empty. */
  predicate StagePayload(v: Fields, payload: Fields) {
    && payload.Keys == {"sequence", "name", "description", "actors", "systems", "documents", "pain_points", "baseline_metrics"}
    && "sequence" in v && v["sequence"].Number? && v["sequence"].n > 0 && payload["sequence"] == v["sequence"]
    && "name" in v && payload["name"].Text? && payload["name"].text != ""
    && payload["name"].text == Strip(if v["name"].Text? then v["name"].text else Str(v["name"]))
    && forall f | f in payload && f != "sequence" && f != "name" :: payload[f] == if f in v then v[f] else Text("")
  }

  /** What the process form is given: the stripped texts, and empty ones for what is missing. */
  predicate ProcessPayload(v: Fields, payload: Fields) {
    && payload.Keys == {"name", "scope_start", "scope_end", "trigger", "outcome", "current_flow", "roles", "systems",
                        "data_objects", "bottlenecks", "baseline_metrics", "business_rules", "handoffs", "exceptions",
                        "target_state_principles"}
    && forall f | f in payload :: if f in v then v[f].Text? && payload[f] == Text(Strip(v[f].text)) else payload[f] == Text("")
  }

  /** A new stage stands for the item, made of the field object `v`. */
  ghost predicate StageWritten(w: World, s: State, s': State, id: ItemId, v: Fields) {
    && id in s'.items && s'.items[id].status == Adopted && s'.items[id].created.Some?
    && var o := s'.items[id].created.value;
       && o !in s.domain.stages && o in s'.domain.stages
       && exists payload: Fields :: StagePayload(v, payload)
            && s'.domain.stages[o].sequence == payload["sequence"].n
            && w.stageForm(payload) == Some(s'.domain.stages[o].fields)
  }

  /** A new process stands for the item, made of the field object `v`. */
  ghost predicate ProcessWritten(w: World, s: State, s': State, id: ItemId, v: Fields) {
    && id in s'.items && s'.items[id].status == Adopted && s'.items[id].created.Some?
    && var o := s'.items[id].created.value;
       && o !in s.domain.processes && o in s'.domain.processes && s'.domain.processes[o].item == id
       && exists payload: Fields :: ProcessPayload(v, payload) && w.processForm(payload) == Some(s'.domain.processes[o].fields)
  }

  /** The new process of the item belongs to the stage that was chosen for it. */
  predicate PlacedAt(s: State, s': State, id: ItemId, reference: ReferenceInput) {
    && id in s'.items && s'.items[id].created.Some? && s'.items[id].created.value in s'.domain.processes
    && var stage := s'.domain.processes[s'.items[id].created.value].stage;
       match reference
       case Malformed => false
       case ExistingStage(chosen) => stage == chosen && stage in s.domain.stages
       case LocalStage(key) =>
         exists d | d in s.items && d in s'.items ::
           s.items[d].kind == ValueStreamStage && s.items[d].localKey == key && s'.items[d].created == Some(stage)
  }

  predicate Confirmable(i: Item, kind: Kind) { i.kind == kind && i.decision != Rejected }

  /** Every confirmed metric item brings its value, every other field its current one. */
  ghost predicate Merged(items: Items, before: Fields, merged: Fields) {
    && merged.Keys == {"use_case.metric.name", "use_case.metric.type", "use_case.metric.direction", "use_case.metric.unit",
                       "use_case.metric.baseline", "use_case.metric.target", "use_case.metric.measurement_method"}
    && (forall id | id in items && Confirmable(items[id], MetricSet) ::
          items[id].targetPath in merged && StandsForValue(items[id], merged[items[id].targetPath]))
    && (forall p | p in merged && !BroughtByItem(items, p) :: merged[p] == if p in before then before[p] else Nothing)
  }

  ghost predicate BroughtByItem(items: Items, path: string) {
    exists id :: id in items && Confirmable(items[id], MetricSet) && items[id].targetPath == path
  }

  /** The metric fields hold what the form makes of the merged values, and the rest of the use case stays. */
  ghost predicate MetricsWritten(w: World, s: State, s': State) {
    exists merged: Fields :: Merged(s.items, s.domain.metrics, merged) && w.metricForm(merged).Some?
      && Saved(s.domain.metrics, merged, w.metricForm(merged).value, s'.domain.metrics)
  }

  predicate Saved(before: Fields, merged: Fields, cleaned: Fields, after: Fields) {
    && (forall p | p in merged && p in cleaned :: p in after && after[p] == cleaned[p])
    && (forall p | p in before && !(p in merged && p in cleaned) :: p in after && after[p] == before[p])
    && (forall p | p in after :: p in before || (p in merged && p in cleaned))
  }

  // ---- an execution writes what the items stand for

  lemma ConfirmedFieldsAre(i: Item, v: Fields)
    requires StandsForFields(i, v)
    ensures ConfirmedFields(i) == Some(v)
  {
  }

  lemma MetricValueIs(i: Item)
    requires MetricValue(i).Some?
    ensures StandsForValue(i, MetricValue(i).value)
  {
  }

  lemma StagePayloadIs(v: Fields)
    requires ValidStageValues(v)
    ensures StagePayload(v, StageValues(v))
  {
    hide Strip;
    assert Str(v["name"]) == if v["name"].Text? then v["name"].text else Str(v["name"]);
  }

  lemma StageMadeIsWritten(w: World, s: State, s': State, id: ItemId, v: Fields)
    requires StageMade(w, s, s', id) && StandsForFields(s.items[id], v) && s'.items[id].status == Adopted
    ensures StageWritten(w, s, s', id, v)
  {
    ConfirmedFieldsAre(s.items[id], v);
    StagePayloadIs(v);
    hide StagePayload;
    hide ConfirmedFields;
    assert StagePayload(v, StageValues(v)) && StageValues(v)["sequence"] == v["sequence"];
    hide StageValues;
    hide ValidLocalKey;
  }

  lemma ProcessMadeIsWritten(w: World, s: State, s': State, id: ItemId, v: Fields)
    requires ProcessMade(w, s, s', id) && StandsForFields(s.items[id], v) && s'.items[id].status == Adopted
    ensures ProcessWritten(w, s, s', id, v)
  {
    ConfirmedFieldsAre(s.items[id], v);
    hide AttachedTo;
    hide ConfirmedFields;
    hide ProcessPayload;
    assert ValidProcessValues(v);
    ValidProcessPayload(v);
    hide ValidProcessValues;
    hide ProcessValues;
  }

  lemma SelectedAreConfirmable(w: World, h: Header, order: seq<ItemId>, s: State, id: ItemId)
    requires IsOrder(order, s.items) && GraphAccepted(order, s) && DomainAccepts(w, h, s.items, s.domain) && id in s.items
    ensures id in SelectedItems(s.items, s.items[id].kind) <==> s.items[id].decision != Rejected
    ensures s.items[id].decision != Rejected ==> (s.items[id].kind == MetricSet <==> h.targetType == UseCase)
  {
    AllSelected(h, w, order, s, id);
    SelectedIs(s.items, id);
    hide SelectedItems;
    hide GraphAccepted;
    hide DomainAccepts;
  }

  /** A confirmed stage or process item is written as what it stands for. */
  lemma ObjectIsWritten(w: World, h: Header, order: seq<ItemId>, s: State, actor: Actor, key: IdempotencyKey, s': State,
      id: ItemId, v: Fields)
    requires Constraints(order, s.items, s.domain) && CanExecute(w, h, order, s, actor, key) && Executed(w, h, s, actor, s')
    requires id in s.items && s.items[id].kind != MetricSet && StandsForFields(s.items[id], v)
    ensures s.items[id].kind == ValueStreamStage ==> StageWritten(w, s, s', id, v)
    ensures s.items[id].kind == ProcessAnalysis ==> ProcessWritten(w, s, s', id, v) && ProcessMade(w, s, s', id)
  {
    hide Constraints;
    hide GraphAccepted;
    hide DomainAccepts;
    hide Executed;
    hide KeyHolds;
    ConstraintsOrder(order, s.items, s.domain);
    ExecutionOutcome(w, h, order, s, actor, key, s');
    SelectedAreConfirmable(w, h, order, s, id);
    hide SelectedItems;
    hide StageMade;
    hide ProcessMade;
    hide TableGrown;
    assert ItemResolved(w, s.items[id], s'.items[id]);
    hide StageWritten;
    hide ProcessWritten;
    if s.items[id].kind == ValueStreamStage {
      StageMadeIsWritten(w, s, s', id, v);
    } else {
      ProcessMadeIsWritten(w, s, s', id, v);
    }
  }

  lemma MetricReadyAt(w: World, items: Items, d: Domain, ids: set<ItemId>, id: ItemId)
    requires ids <= items.Keys && MetricsReady(w, items, d, ids) && id in ids
    ensures items[id].targetPath in MetricPaths() && MetricValue(items[id]).Some? && PathsUnique(items, ids)
  {
    hide MetricPaths;
    hide EffectiveMetrics;
  }

  lemma EffectiveIs(items: Items, metrics: Fields, ids: set<ItemId>, id: ItemId)
    requires ids <= items.Keys && PathsUnique(items, ids) && id in ids && MetricValue(items[id]).Some?
    ensures StandsForValue(items[id], EffectiveMetric(items, metrics, ids, items[id].targetPath))
  {
    MetricValueIs(items[id]);
    hide MetricValue;
    hide StandsForValue;
    assert MetricItem(items, ids, items[id].targetPath) == Some(id);
  }

  lemma MergedItemIs(w: World, h: Header, order: seq<ItemId>, s: State, id: ItemId)
    requires IsOrder(order, s.items) && GraphAccepted(order, s) && DomainAccepts(w, h, s.items, s.domain) && h.targetType == UseCase
    requires id in s.items && Confirmable(s.items[id], MetricSet)
    ensures var ids := SelectedItems(s.items, MetricSet);
            && ids <= s.items.Keys && s.items[id].targetPath in MetricPaths()
            && StandsForValue(s.items[id], EffectiveMetric(s.items, s.domain.metrics, ids, s.items[id].targetPath))
  {
    var ids := SelectedItems(s.items, MetricSet);
    SelectedKnown(s.items, MetricSet);
    SelectedAreConfirmable(w, h, order, s, id);
    hide *;
    hide SelectedItems;
    assert MetricsReady(w, s.items, s.domain, ids) by { MetricGroupReady(w, h, s); }
    assert id in ids by { ConfirmableKind(s.items[id]); }
    MetricReadyAt(w, s.items, s.domain, ids, id);
    EffectiveIs(s.items, s.domain.metrics, ids, id);
  }

  lemma ConfirmableKind(i: Item)
    requires Confirmable(i, MetricSet)
    ensures i.kind == MetricSet && i.decision != Rejected
  {
  }

  lemma MetricGroupReady(w: World, h: Header, s: State)
    requires DomainAccepts(w, h, s.items, s.domain) && h.targetType == UseCase
    ensures SelectedItems(s.items, MetricSet) <= s.items.Keys
    ensures MetricsReady(w, s.items, s.domain, SelectedItems(s.items, MetricSet))
  {
    hide MetricsReady;
    hide KindsAllowed;
  }

  lemma MergedOf(items: Items, before: Fields, ids: set<ItemId>)
    requires ids == SelectedItems(items, MetricSet) && ids <= items.Keys
    requires forall id | id in items && Confirmable(items[id], MetricSet) ::
               items[id].targetPath in MetricPaths() && StandsForValue(items[id], EffectiveMetric(items, before, ids, items[id].targetPath))
    ensures Merged(items, before, EffectiveMetrics(items, before, ids))
  {
    hide EffectiveMetric;
    hide StandsForValue;
    hide Confirmable;
    hide BroughtByItem;
    hide SelectedItems;
    var merged := EffectiveMetrics(items, before, ids);
    forall p | p in merged && !BroughtByItem(items, p) ensures merged[p] == if p in before then before[p] else Nothing {
      KeptIs(items, before, ids, p);
    }
  }

  lemma MergedIs(w: World, h: Header, order: seq<ItemId>, s: State)
    requires IsOrder(order, s.items) && GraphAccepted(order, s) && DomainAccepts(w, h, s.items, s.domain) && h.targetType == UseCase
    ensures var ids := SelectedItems(s.items, MetricSet);
            ids <= s.items.Keys && Merged(s.items, s.domain.metrics, EffectiveMetrics(s.items, s.domain.metrics, ids))
  {
    hide *;
    SelectedKnown(s.items, MetricSet);
    var ids := SelectedItems(s.items, MetricSet);
    forall id | id in s.items && Confirmable(s.items[id], MetricSet)
      ensures s.items[id].targetPath in MetricPaths()
      ensures StandsForValue(s.items[id], EffectiveMetric(s.items, s.domain.metrics, ids, s.items[id].targetPath))
    {
      MergedItemIs(w, h, order, s, id);
    }
    MergedOf(s.items, s.domain.metrics, ids);
  }

  lemma KeptIs(items: Items, metrics: Fields, ids: set<ItemId>, path: string)
    requires ids == SelectedItems(items, MetricSet) && !BroughtByItem(items, path)
    ensures EffectiveMetric(items, metrics, ids, path) == if path in metrics then metrics[path] else Nothing
  {
    hide MetricValue;
    assert forall id | id in ids :: Confirmable(items[id], MetricSet);
  }

  lemma SavedIs(before: Fields, merged: Fields, cleaned: Fields)
    requires forall p :: p in merged <==> p in MetricPaths()
    ensures Saved(before, merged, cleaned, SaveMetrics(before, cleaned))
  {
    hide MetricPaths;
  }

  /** The metric fields are written as the merged values the items stand for. */
  lemma MetricsAreWritten(w: World, h: Header, order: seq<ItemId>, s: State, actor: Actor, key: IdempotencyKey, s': State)
    requires Constraints(order, s.items, s.domain) && CanExecute(w, h, order, s, actor, key) && Executed(w, h, s, actor, s')
    requires h.targetType == UseCase
    ensures MetricsWritten(w, s, s')
  {
    hide Constraints;
    hide GraphAccepted;
    hide DomainAccepts;
    hide Executed;
    hide KeyHolds;
    hide ItemsResolved;
    ConstraintsOrder(order, s.items, s.domain);
    ExecutionOutcome(w, h, order, s, actor, key, s');
    MergedIs(w, h, order, s);
    var ids := SelectedItems(s.items, MetricSet);
    var merged := EffectiveMetrics(s.items, s.domain.metrics, ids);
    assert forall p :: p in merged <==> p in MetricPaths();
    hide EffectiveMetrics;
    hide Merged;
    hide SelectedItems;
    SavedIs(s.domain.metrics, merged, w.metricForm(merged).value);
    hide SaveMetrics;
    hide Saved;
  }

  // ---- what a decision leaves on the item

  /** What a person has to see to for a decision to be taken, item by item. */
  ghost predicate Acceptable(w: World, h: Header, s: State, id: ItemId, action: ReviewAction)
    requires id in s.items
  {
    var i := s.items[id];
    && (action.Confirm? ==> i.interpretation.valid && !w.uncertain(id))
    && match i.kind
       case MetricSet => exists c :: AsksValue(w, i, action, c)
       case ValueStreamStage => exists v :: AsksFields(w, i, action, v) && w.stageForm(v).Some?
       case ProcessAnalysis =>
         && h.targetType == ValueStream
         && (exists v :: AsksFields(w, i, action, v) && w.processForm(v).Some?)
         && match action.reference
            case Malformed => false
            case ExistingStage(stage) => stage in s.domain.stages
            case LocalStage(key) =>
              exists d :: d in s.items && s.items[d].kind == ValueStreamStage && s.items[d].localKey == key
                && s.items[d].status in {ItemOpen, ItemStatus.Confirmed, Adopted}
  }

  /** A decision is taken exactly if its author may take it now and, unless it rejects, the input is acceptable. */
  lemma DecisionIsTaken(w: World, h: Header, s: State, id: ItemId, actor: Actor, action: ReviewAction)
    ensures MayDecide(w, h, s, id, actor, action) <==>
              && h.createdBy == actor && w.targetExists && w.canEdit(actor)
              && s.batch.status in {BatchStatus.Open, BatchStatus.Failed, BatchStatus.Conflict, BatchStatus.Stale}
              && id in s.items && (action.Reject? || Acceptable(w, h, s, id, action))
  {
    if id in s.items && !action.Reject? {
      SnapshotIffAsked(w, id, s.items[id], action);
      ReferenceIs(s, action.reference);
      hide Snapshot;
      hide ReferenceAccepted;
      hide AsksValue;
      hide AsksFields;
    }
  }

  lemma SnapshotIffAsked(w: World, id: ItemId, i: Item, action: ReviewAction)
    requires !action.Reject?
    ensures Snapshot(w, id, i, action).Some? <==>
              && (action.Confirm? ==> i.interpretation.valid && !w.uncertain(id))
              && match i.kind
                 case MetricSet => exists c :: AsksValue(w, i, action, c)
                 case ValueStreamStage => exists v :: AsksFields(w, i, action, v) && w.stageForm(v).Some?
                 case ProcessAnalysis => exists v :: AsksFields(w, i, action, v) && w.processForm(v).Some?
  {
    match action
    case Confirm(_) =>
      assert AsksValue(w, i, action, i.interpretation.value) && AsksFields(w, i, action, i.interpretation.fields);
    case Edit(value, fields, _) =>
      var c, v := w.normalizeMetric(i.targetPath, value), w.normalizeFields(i.kind, fields);
      assert c.Some? ==> AsksValue(w, i, action, c.value);
      assert v.Some? ==> AsksFields(w, i, action, v.value);
  }

  lemma ReferenceIs(s: State, input: ReferenceInput)
    ensures ReferenceAccepted(s.items, s.domain.stages, input) <==>
              match input
              case Malformed => false
              case ExistingStage(stage) => stage in s.domain.stages
              case LocalStage(key) =>
                exists d :: d in s.items && s.items[d].kind == ValueStreamStage && s.items[d].localKey == key
                  && s.items[d].status in {ItemOpen, ItemStatus.Confirmed, Adopted}
  {
    if input.LocalStage? {
      forall d ensures StageWithKey(s.items, d, input.key) && !InvalidDependency(s.items[d].status) <==>
                         d in s.items && s.items[d].kind == ValueStreamStage && s.items[d].localKey == input.key
                         && s.items[d].status in {ItemOpen, ItemStatus.Confirmed, Adopted}
      {
      }
      hide InvalidDependency;
    }
  }

  /** The item is bound to the stage that was chosen for it. */
  predicate Chosen(items: Items, i: Item, reference: ReferenceInput) {
    match reference
    case Malformed => false
    case ExistingStage(stage) => i.stageReference == Some(Existing(stage)) && i.dependsOn == None
    case LocalStage(key) =>
      i.stageReference == Some(Local(key)) && i.dependsOn.Some? && i.dependsOn.value in items
      && items[i.dependsOn.value].kind == ValueStreamStage && items[i.dependsOn.value].localKey == key
  }

  /** After the decision the item stands for exactly what was asked for, by the person who asked, where it was asked. */
  lemma DecisionIsNoted(w: World, h: Header, order: seq<ItemId>, s: State, id: ItemId, actor: Actor, action: ReviewAction, s': State)
    requires IsOrder(order, s.items) && Decides(w, h, order, s, id, actor, action, s')
    ensures id in s.items && id in s'.items && SameOrigin(s.items[id], s'.items[id])
    ensures |s'.audits| == |s.audits| + 1 && s'.audits[..|s.audits|] == s.audits
    ensures var noted := s'.audits[|s.audits|];
            && noted.actor == actor && noted.item == Some(id) && noted.key == s'.batch.key && noted.attempt == s.batch.attempts
            && noted.event == if action.Reject? then RejectedEvent else ConfirmedEvent
    ensures action.Reject? ==> s'.items[id].status == ItemRejected && s'.items[id].decision == Rejected
    ensures !action.Reject? ==> s'.items[id].status == ItemStatus.Confirmed && s'.items[id].confirmedBy == Some(actor)
    ensures !action.Reject? && s.items[id].kind == MetricSet ==>
              exists c :: AsksValue(w, s.items[id], action, c) && StandsForValue(s'.items[id], c)
    ensures !action.Reject? && s.items[id].kind != MetricSet ==>
              exists v :: AsksFields(w, s.items[id], action, v) && StandsForFields(s'.items[id], v)
    ensures !action.Reject? && s.items[id].kind == ProcessAnalysis ==> Chosen(s.items, s'.items[id], action.reference)
  {
    hide SealBatch;
    if action.Reject? {
      RejectedRow(w, s.items, id, actor, id);
      hide RejectItem;
    } else {
      var bound := BoundItem(w, h, s, id, actor, action, s'.items);
      hide Confirms;
      BoundKeeps(s, id, action, bound);
      hide Binds;
      SnapshotStands(w, id, s.items[id], action, bound, actor);
      hide Snapshot;
      hide AsksFields;
      hide AsksValue;
      hide StandsForFields;
      hide StandsForValue;
      hide Chosen;
      ChosenReads(s.items, bound, ConfirmedItem(w, bound, actor, Snapshot(w, id, s.items[id], action).value), action.reference);
    }
  }

  lemma ChosenReads(items: Items, i: Item, i': Item, reference: ReferenceInput)
    requires i'.stageReference == i.stageReference && i'.dependsOn == i.dependsOn
    ensures Chosen(items, i', reference) == Chosen(items, i, reference)
  {
  }

  lemma BoundKeeps(s: State, id: ItemId, action: ReviewAction, bound: Item)
    requires id in s.items && !action.Reject? && Binds(s, id, action, bound)
    ensures SameOrigin(s.items[id], bound) && bound.interpretation == s.items[id].interpretation
    ensures s.items[id].kind == ProcessAnalysis ==> Chosen(s.items, bound, action.reference)
  {
    hide InvalidDependency;
  }

  lemma SnapshotStands(w: World, id: ItemId, i: Item, action: ReviewAction, bound: Item, actor: Actor)
    requires !action.Reject? && Snapshot(w, id, i, action).Some? && bound.interpretation == i.interpretation
    ensures var i' := ConfirmedItem(w, bound, actor, Snapshot(w, id, i, action).value);
            if i.kind == MetricSet then exists c :: AsksValue(w, i, action, c) && StandsForValue(i', c)
            else exists v :: AsksFields(w, i, action, v) && StandsForFields(i', v)
  {
    hide FormsAccept;
    var i' := ConfirmedItem(w, bound, actor, Snapshot(w, id, i, action).value);
    match action
    case Confirm(_) =>
      assert AsksValue(w, i, action, i.interpretation.value) && StandsForValue(i', i.interpretation.value);
      assert AsksFields(w, i, action, i.interpretation.fields) && StandsForFields(i', i.interpretation.fields);
    case Edit(value, fields, _) =>
      if i.kind == MetricSet {
        var c := w.normalizeMetric(i.targetPath, value).value;
        assert AsksValue(w, i, action, c) && StandsForValue(i', c);
      } else {
        var v := w.normalizeFields(i.kind, fields).value;
        assert AsksFields(w, i, action, v) && StandsForFields(i', v);
      }
  }

  // ---- what a key fixes

  /** Everything a person decided on and an execution goes by. */
  predicate SameContent(i: Item, j: Item) {
    && i.localKey == j.localKey && i.kind == j.kind && i.targetPath == j.targetPath && i.groupKey == j.groupKey
    && i.status == j.status && i.decision == j.decision && i.decisionSnapshot == j.decisionSnapshot
    && i.interpretation == j.interpretation && i.proposed == j.proposed
    && i.dependencyKey == j.dependencyKey && i.stageReference == j.stageReference
    && i.fieldHash == j.fieldHash && i.source == j.source && i.confirmedBy == j.confirmedBy
  }

  /** The key under which items are sealed. */
  ghost function SealedKey(h: Header, order: seq<ItemId>, items: Items): IdempotencyKey
    requires IsOrder(order, items)
  {
    KeyOf(h, GraphHash(GraphOf(order, items)))
  }

  lemma ContentIsEntry(i: Item, j: Item)
    ensures EntryOf(i) == EntryOf(j) <==> SameContent(i, j)
  {
  }

  lemma GraphAt(order: seq<ItemId>, items: Items, n: nat)
    requires IsOrder(order, items) && n < |order|
    ensures order[n] in items && |GraphOf(order, items)| == |order| && GraphOf(order, items)[n] == EntryOf(items[order[n]])
  {
    assert order[n] in order;
  }

  /**
   * Two batches have the same key exactly if they are reviews of the same analysis for the same target and
   * their items agree, one by one, in everything that was proposed, decided and bound.
   */
  lemma EqualKeysSameContent(h: Header, order: seq<ItemId>, items: Items, h': Header, order': seq<ItemId>, items': Items)
    requires IsOrder(order, items) && IsOrder(order', items')
    ensures SealedKey(h, order, items) == SealedKey(h', order', items') <==>
              && h.session == h'.session && h.analysis == h'.analysis && h.targetType == h'.targetType && h.target == h'.target
              && h.interpretationVersion == h'.interpretationVersion && |order| == |order'|
              && forall n | 0 <= n < |order| :: order[n] in items && order'[n] in items' && SameContent(items[order[n]], items'[order'[n]])
  {
    hide GraphOf;
    hide EntryOf;
    hide SameContent;
    hide IsOrder;
    var graph, graph' := GraphOf(order, items), GraphOf(order', items');
    GraphSize(order, items);
    GraphSize(order', items');
    forall n | 0 <= n < |order|
      ensures order[n] in items && graph[n] == EntryOf(items[order[n]])
      ensures n < |order'| ==> order'[n] in items' && graph'[n] == EntryOf(items'[order'[n]])
                               && (graph[n] == graph'[n] <==> SameContent(items[order[n]], items'[order'[n]]))
    {
      GraphAt(order, items, n);
      if n < |order'| {
        GraphAt(order', items', n);
        ContentIsEntry(items[order[n]], items'[order'[n]]);
      }
    }
    if |order| == |order'| && forall n | 0 <= n < |order| :: SameContent(items[order[n]], items'[order'[n]]) {
      assert graph == graph';
    }
  }

  lemma GraphSize(order: seq<ItemId>, items: Items)
    requires IsOrder(order, items)
    ensures |GraphOf(order, items)| == |order|
  {
    hide EntryOf;
  }

  /** Items that agree stand for the same values. */
  lemma SameContentStands(i: Item, j: Item, v: Fields, c: Cell)
    requires SameContent(i, j)
    ensures StandsForFields(i, v) == StandsForFields(j, v) && StandsForValue(i, c) == StandsForValue(j, c)
  {
  }

  // ---- what a ready batch may still be refused for, in terms of the decisions

  /** The domain takes what the item stands for. */
  ghost predicate Welcome(w: World, d: Domain, i: Item) {
    match i.kind
    case MetricSet => i.fieldHash == Some(if i.targetPath in d.metrics then d.metrics[i.targetPath] else Nothing)
    case ValueStreamStage =>
      exists v: Fields, payload: Fields :: StandsForFields(i, v) && v.Keys <= payload.Keys && StagePayload(v, payload)
        && w.stageForm(payload).Some? && forall o | o in d.stages :: d.stages[o].sequence != payload["sequence"].n
    case ProcessAnalysis =>
      && (exists v: Fields, payload: Fields :: StandsForFields(i, v) && v.Keys <= payload.Keys && ProcessPayload(v, payload)
            && Required(payload) && w.processForm(payload).Some?)
      && (i.stageReference.Some? && i.stageReference.value.Existing? ==> i.stageReference.value.stage in d.stages)
  }

  /** No field a process cannot do without is empty. */
  predicate Required(payload: Fields) {
    forall f | f in {"name", "scope_start", "scope_end", "trigger", "outcome", "current_flow", "roles", "systems",
                     "data_objects", "bottlenecks", "baseline_metrics"} :: f in payload && payload[f] != Text("")
  }

  /** No two stage items that were not rejected stand for the same place in the stream. */
  ghost predicate SequencesApart(items: Items) {
    forall a, b, u, v | a in items && b in items && Confirmable(items[a], ValueStreamStage) && Confirmable(items[b], ValueStreamStage)
                        && StandsForFields(items[a], u) && StandsForFields(items[b], v)
                        && "sequence" in u && "sequence" in v && u["sequence"] == v["sequence"] :: a == b
  }

  /** Every item that was not rejected is welcome, and together they fit. */
  ghost predicate AllWelcome(w: World, h: Header, items: Items, d: Domain) {
    && (forall id | id in items && items[id].decision != Rejected :: Welcome(w, d, items[id]))
    && match h.targetType
       case ValueStream =>
         SequencesApart(items)
       case UseCase => exists merged: Fields :: Merged(items, d.metrics, merged) && w.metricForm(merged).Some?
  }

  lemma StagePayloadIff(v: Fields)
    ensures ValidStageValues(v) ==> StagePayload(v, StageValues(v)) && v.Keys <= StageValues(v).Keys
    ensures forall payload: Fields | v.Keys <= payload.Keys && StagePayload(v, payload) :: ValidStageValues(v) && payload == StageValues(v)
  {
    hide Strip;
    forall payload: Fields | v.Keys <= payload.Keys && StagePayload(v, payload) ensures ValidStageValues(v) && payload == StageValues(v) {
      assert Str(v["name"]) == if v["name"].Text? then v["name"].text else Str(v["name"]);
    }
    if ValidStageValues(v) {
      StagePayloadIs(v);
    }
  }

  lemma RequiredIs(payload: Fields)
    requires payload.Keys == ProcessFields()
    ensures Required(payload) <==> forall f | f in RequiredProcessFields() :: payload[f] != Text("")
  {
  }

  lemma ProcessPayloadIs(v: Fields, payload: Fields)
    ensures ProcessPayload(v, payload) <==>
              payload.Keys == ProcessFields()
              && forall f | f in payload :: if f in v then v[f].Text? && payload[f] == Text(Strip(v[f].text)) else payload[f] == Text("")
  {
    hide Strip;
  }

  lemma ValidProcessPayload(v: Fields)
    requires ValidProcessValues(v)
    ensures ProcessPayload(v, ProcessValues(v)) && v.Keys <= ProcessValues(v).Keys && Required(ProcessValues(v))
  {
    var payload := ProcessValues(v);
    assert payload.Keys == ProcessFields() && RequiredProcessFields() <= ProcessFields();
    ProcessPayloadIs(v, payload);
    RequiredIs(payload);
    hide ProcessPayload;
    hide Required;
    hide ProcessFields;
    hide RequiredProcessFields;
    hide Strip;
  }

  lemma ProcessPayloadFits(v: Fields, payload: Fields)
    requires v.Keys <= payload.Keys && ProcessPayload(v, payload) && Required(payload)
    ensures ValidProcessValues(v) && payload == ProcessValues(v)
  {
    ProcessPayloadIs(v, payload);
    assert RequiredProcessFields() <= ProcessFields();
    RequiredIs(payload);
    hide *;
    hide ProcessPayload;
    hide Required;
    RequiredFilled(v, payload);
    PayloadIsNormal(v, payload);
  }

  lemma RequiredFilled(v: Fields, payload: Fields)
    requires RequiredProcessFields() <= ProcessFields() && v.Keys <= payload.Keys && payload.Keys == ProcessFields()
    requires forall f | f in payload :: if f in v then v[f].Text? && payload[f] == Text(Strip(v[f].text)) else payload[f] == Text("")
    requires forall f | f in RequiredProcessFields() :: payload[f] != Text("")
    ensures ValidProcessValues(v)
  {
    hide Strip;
    hide ProcessFields;
    hide RequiredProcessFields;
    forall f | f in RequiredProcessFields() ensures f in v && Strip(Str(v[f])) != "" {
      assert f in payload;
    }
  }

  lemma PayloadIsNormal(v: Fields, payload: Fields)
    requires ValidProcessValues(v) && payload.Keys == ProcessFields()
    requires forall f | f in payload :: if f in v then v[f].Text? && payload[f] == Text(Strip(v[f].text)) else payload[f] == Text("")
    ensures payload == ProcessValues(v)
  {
    hide Strip;
    hide ProcessFields;
    hide RequiredProcessFields;
    assert payload.Keys == ProcessValues(v).Keys;
  }

  lemma ProcessPayloadIff(v: Fields)
    ensures ValidProcessValues(v) ==> ProcessPayload(v, ProcessValues(v)) && v.Keys <= ProcessValues(v).Keys && Required(ProcessValues(v))
    ensures forall payload: Fields | v.Keys <= payload.Keys && ProcessPayload(v, payload) && Required(payload) ::
              ValidProcessValues(v) && payload == ProcessValues(v)
  {
    hide *;
    if ValidProcessValues(v) {
      ValidProcessPayload(v);
    }
    forall payload: Fields | v.Keys <= payload.Keys && ProcessPayload(v, payload) && Required(payload)
      ensures ValidProcessValues(v) && payload == ProcessValues(v)
    {
      ProcessPayloadFits(v, payload);
    }
  }

  lemma StandsAlone(i: Item, u: Fields, v: Fields)
    requires StandsForFields(i, u) && StandsForFields(i, v)
    ensures u == v
  {
  }

  lemma ReadyStands(h: Header, order: seq<ItemId>, s: State, id: ItemId)
    requires ReviewSound(h, order, s) && Ready(s) && id in s.items && s.items[id].decision != Rejected
    ensures s.items[id].kind != MetricSet ==> StandsForFields(s.items[id], FieldsOf(s.items[id]))
    ensures id in SelectedItems(s.items, s.items[id].kind)
  {
    DependencyIsStage(h, s.items, id);
    assert ItemReady(s.items, s.items[id]);
    ReadySelection(h, order, s, id);
    hide ReviewSound;
    hide DependencyFits;
    hide KindFits;
    hide SelectedItems;
  }

  lemma WelcomeIff(w: World, h: Header, order: seq<ItemId>, s: State, id: ItemId)
    requires ReviewSound(h, order, s) && Ready(s) && id in s.items && s.items[id].decision != Rejected
    ensures FieldsAccepted(w, s.domain, s.items[id]) <==> Welcome(w, s.domain, s.items[id])
  {
    ReadyStands(h, order, s, id);
    var i := s.items[id];
    if i.kind != MetricSet {
      var v := FieldsOf(i);
      forall u | StandsForFields(i, u) ensures u == v {
        StandsAlone(i, u, v);
      }
      hide *;
      FieldsWelcome(w, s.domain, i, v);
    } else {
      hide *;
      MetricWelcome(w, s.domain, i);
    }
  }

  lemma MetricWelcome(w: World, d: Domain, i: Item)
    requires i.kind == MetricSet
    ensures FieldsAccepted(w, d, i) <==> Welcome(w, d, i)
  {
  }

  lemma FieldsWelcome(w: World, d: Domain, i: Item, v: Fields)
    requires i.kind != MetricSet && StandsForFields(i, v) && v == FieldsOf(i) && forall u | StandsForFields(i, u) :: u == v
    ensures FieldsAccepted(w, d, i) <==> Welcome(w, d, i)
  {
    StagePayloadIff(v);
    ProcessPayloadIff(v);
    ConfirmedFieldsAre(i, v);
    hide StandsForFields;
    hide FieldsOf;
    hide ConfirmedFields;
    hide StageValues;
    hide ProcessValues;
    hide ProcessPayload;
    hide ValidProcessValues;
    hide Required;
    hide Strip;
    if i.kind == ValueStreamStage {
      if ValidStageValues(v) {
        assert StagePayload(v, StageValues(v)) && StageValues(v)["sequence"].n == SequenceOf(i);
      }
      hide StagePayload;
      hide SequenceOf;
    }
  }

  lemma SequenceAt(h: Header, order: seq<ItemId>, s: State, id: ItemId)
    requires ReviewSound(h, order, s) && Ready(s)
    requires id in s.items && Confirmable(s.items[id], ValueStreamStage) ==> ValidStageValues(FieldsOf(s.items[id]))
    ensures id in SelectedItems(s.items, ValueStreamStage) <==> id in s.items && Confirmable(s.items[id], ValueStreamStage)
    ensures id in SelectedItems(s.items, ValueStreamStage) ==>
              StandsForFields(s.items[id], FieldsOf(s.items[id])) && "sequence" in FieldsOf(s.items[id])
              && FieldsOf(s.items[id])["sequence"] == Number(SequenceOf(s.items[id]))
  {
    SelectedKnown(s.items, ValueStreamStage);
    if id in s.items {
      SelectedIs(s.items, id);
      ReadySelection(h, order, s, id);
      if Confirmable(s.items[id], ValueStreamStage) {
        ReadyStands(h, order, s, id);
        SequenceIs(s.items[id]);
      }
    }
    hide ReviewSound;
    hide Ready;
    hide SelectedItems;
    hide FieldsOf;
    hide SequenceOf;
    hide StandsForFields;
    hide ValidStageValues;
  }

  lemma SequencesWelcome(h: Header, order: seq<ItemId>, s: State)
    requires ReviewSound(h, order, s) && Ready(s)
    requires forall id | id in s.items && Confirmable(s.items[id], ValueStreamStage) :: ValidStageValues(FieldsOf(s.items[id]))
    ensures SequencesDistinct(s.items, SelectedItems(s.items, ValueStreamStage)) <==>
              SequencesApart(s.items)
  {
    SelectedKnown(s.items, ValueStreamStage);
    var ids := SelectedItems(s.items, ValueStreamStage);
    hide *;
    forall id
      ensures id in ids <==> id in s.items && Confirmable(s.items[id], ValueStreamStage)
      ensures id in ids ==> StandsForFields(s.items[id], FieldsOf(s.items[id])) && "sequence" in FieldsOf(s.items[id])
                            && FieldsOf(s.items[id])["sequence"] == Number(SequenceOf(s.items[id]))
    {
      SequenceAt(h, order, s, id);
    }
    forall id, u | id in ids && StandsForFields(s.items[id], u) ensures u == FieldsOf(s.items[id]) {
      StandsAlone(s.items[id], u, FieldsOf(s.items[id]));
    }
    SequencesCompared(s.items, ids);
  }

  lemma SequenceIs(i: Item)
    requires ValidStageValues(FieldsOf(i))
    ensures "sequence" in FieldsOf(i) && FieldsOf(i)["sequence"] == Number(SequenceOf(i))
  {
    hide Strip;
  }

  lemma SequencesCompared(items: Items, ids: set<ItemId>)
    requires ids <= items.Keys && forall id :: id in ids <==> id in items && Confirmable(items[id], ValueStreamStage)
    requires forall id | id in ids :: StandsForFields(items[id], FieldsOf(items[id])) && "sequence" in FieldsOf(items[id])
                                      && FieldsOf(items[id])["sequence"] == Number(SequenceOf(items[id]))
    requires forall id, u | id in ids && StandsForFields(items[id], u) :: u == FieldsOf(items[id])
    ensures SequencesDistinct(items, ids) <==>
              SequencesApart(items)
  {
    hide StandsForFields;
    hide FieldsOf;
    hide SequenceOf;
    hide Confirmable;
  }

  lemma MergedAlone(items: Items, before: Fields, a: Fields, b: Fields)
    requires Merged(items, before, a) && Merged(items, before, b)
    ensures a == b
  {
    assert a.Keys == b.Keys;
    forall p | p in a ensures a[p] == b[p] {
      MergedAgree(items, before, a, b, p);
    }
    hide Merged;
  }

  lemma MergedAgree(items: Items, before: Fields, a: Fields, b: Fields, p: string)
    requires Merged(items, before, a) && Merged(items, before, b) && p in a && p in b
    ensures a[p] == b[p]
  {
    hide StandsForValue;
    hide Confirmable;
    if BroughtByItem(items, p) {
      var id :| id in items && Confirmable(items[id], MetricSet) && items[id].targetPath == p;
      BothStand(items[id], a[p], b[p]);
    }
  }

  lemma BothStand(i: Item, c: Cell, d: Cell)
    requires StandsForValue(i, c) && StandsForValue(i, d)
    ensures c == d
  {
  }

  lemma ReadyMetricsMerged(h: Header, order: seq<ItemId>, s: State)
    requires ReviewSound(h, order, s) && Ready(s) && h.targetType == UseCase
    ensures SelectedItems(s.items, MetricSet) <= s.items.Keys
    ensures Merged(s.items, s.domain.metrics, EffectiveMetrics(s.items, s.domain.metrics, SelectedItems(s.items, MetricSet)))
  {
    var ids := SelectedItems(s.items, MetricSet);
    SelectedKnown(s.items, MetricSet);
    assert ItemsSound(h, s.items);
    hide *;
    MetricPathsUnique(h, s.items, ids);
    forall id | id in s.items && Confirmable(s.items[id], MetricSet)
      ensures s.items[id].targetPath in MetricPaths()
      ensures StandsForValue(s.items[id], EffectiveMetric(s.items, s.domain.metrics, ids, s.items[id].targetPath))
    {
      ReadyMetricStands(h, order, s, id);
      EffectiveIs(s.items, s.domain.metrics, ids, id);
    }
    MergedOf(s.items, s.domain.metrics, ids);
  }

  lemma ReadyMetricStands(h: Header, order: seq<ItemId>, s: State, id: ItemId)
    requires ReviewSound(h, order, s) && Ready(s) && h.targetType == UseCase && id in s.items && Confirmable(s.items[id], MetricSet)
    ensures id in SelectedItems(s.items, MetricSet) && s.items[id].targetPath in MetricPaths() && MetricValue(s.items[id]).Some?
  {
    DependencyIsStage(h, s.items, id);
    assert ItemReady(s.items, s.items[id]);
    ReadySelection(h, order, s, id);
    hide ReviewSound;
    hide DependencyFits;
    hide SelectedItems;
    hide MetricPaths;
    hide MetricKey;
  }

  lemma StreamWelcome(w: World, h: Header, order: seq<ItemId>, s: State)
    requires ReviewSound(h, order, s) && Ready(s) && h.targetType == ValueStream
    requires forall id | id in s.items && s.items[id].decision != Rejected :: FieldsAccepted(w, s.domain, s.items[id])
    ensures DomainAgrees(w, h, s.items, s.domain) <==>
              SequencesApart(s.items)
  {
    forall id | id in s.items && Confirmable(s.items[id], ValueStreamStage) ensures ValidStageValues(FieldsOf(s.items[id])) {
      assert FieldsAccepted(w, s.domain, s.items[id]);
    }
    hide FieldsAccepted;
    hide FieldsOf;
    hide ValidStageValues;
    hide SequencesApart;
    SequencesWelcome(h, order, s);
    hide ReviewSound;
    hide Ready;
    hide SelectedItems;
    hide SequencesDistinct;
    hide StandsForFields;
    hide Confirmable;
  }

  lemma MetricsWelcome(w: World, h: Header, order: seq<ItemId>, s: State)
    requires ReviewSound(h, order, s) && Ready(s) && h.targetType == UseCase
    requires forall id | id in s.items && s.items[id].decision != Rejected :: FieldsAccepted(w, s.domain, s.items[id])
    ensures DomainAgrees(w, h, s.items, s.domain) <==>
              exists merged: Fields :: Merged(s.items, s.domain.metrics, merged) && w.metricForm(merged).Some?
  {
    hide FieldsAccepted;
    ReadyMetricsMerged(h, order, s);
    var all := EffectiveMetrics(s.items, s.domain.metrics, SelectedItems(s.items, MetricSet));
    forall merged: Fields | Merged(s.items, s.domain.metrics, merged) ensures merged == all {
      MergedAlone(s.items, s.domain.metrics, merged, all);
    }
    hide ReviewSound;
    hide Ready;
    hide Merged;
    hide EffectiveMetrics;
    hide SelectedItems;
  }

  lemma AgreeingFields(w: World, h: Header, items: Items, d: Domain)
    requires DomainAgrees(w, h, items, d)
    ensures forall id | id in items && items[id].decision != Rejected :: FieldsAccepted(w, d, items[id])
  {
    hide FieldsAccepted;
    hide SelectedItems;
    hide EffectiveMetrics;
  }

  /** The objections the domain may still have to a ready batch, in terms of what was decided and what stands there now. */
  lemma AgreesIffWelcome(w: World, h: Header, order: seq<ItemId>, s: State)
    requires ReviewSound(h, order, s) && Ready(s)
    ensures DomainAgrees(w, h, s.items, s.domain) <==> AllWelcome(w, h, s.items, s.domain)
  {
    hide ReviewSound;
    hide Ready;
    hide FieldsAccepted;
    hide Welcome;
    hide Merged;
    hide DomainAgrees;
    hide StandsForFields;
    hide Confirmable;
    hide SequencesApart;
    forall id | id in s.items && s.items[id].decision != Rejected
      ensures FieldsAccepted(w, s.domain, s.items[id]) <==> Welcome(w, s.domain, s.items[id])
    {
      WelcomeIff(w, h, order, s, id);
    }
    if DomainAgrees(w, h, s.items, s.domain) {
      AgreeingFields(w, h, s.items, s.domain);
    }
    if forall id | id in s.items && s.items[id].decision != Rejected :: FieldsAccepted(w, s.domain, s.items[id]) {
      if h.targetType == ValueStream {
        StreamWelcome(w, h, order, s);
      } else {
        MetricsWelcome(w, h, order, s);
      }
    }
  }

  // ---- nothing is written that was not decided

  /** The item was rejected, or confirmed by somebody at some time and adopted together with what it depends on. */
  predicate WasDecided(h: Header, before: Items, after: Items, id: ItemId) {
    && id in before && id in after
    && var i := before[id];
       if i.decision == Rejected then i.status == ItemRejected && after[id] == i
       else
         && i.decision in {ConfirmedProposal, ConfirmedEdited} && i.status == ItemStatus.Confirmed
         && i.confirmedBy.Some? && i.confirmedAt.Some? && after[id].status == Adopted
         && (if i.dependsOn.None? then i.dependencyKey == ""
             else i.dependsOn.value in before && i.dependsOn.value in after && before[i.dependsOn.value].localKey == i.dependencyKey
                  && after[i.dependsOn.value].status == Adopted)
         && (i.kind == ProcessAnalysis ==> i.source.analysis == h.analysis)
  }

  lemma ProcessSource(w: World, h: Header, order: seq<ItemId>, s: State, id: ItemId)
    requires IsOrder(order, s.items) && GraphAccepted(order, s) && DomainAccepts(w, h, s.items, s.domain) && id in s.items
    ensures s.items[id].decision != Rejected && s.items[id].kind == ProcessAnalysis ==> s.items[id].source.analysis == h.analysis
  {
    SelectedAreConfirmable(w, h, order, s, id);
    hide GraphAccepted;
    hide SelectedItems;
    hide StagesReady;
    hide StageWillResolve;
    hide MetricsReady;
    hide ValidProcessValues;
    hide ConfirmedFields;
    hide ValidLocalKey;
  }

  lemma DecidedItem(w: World, h: Header, order: seq<ItemId>, s: State, actor: Actor, key: IdempotencyKey, s': State, id: ItemId)
    requires Constraints(order, s.items, s.domain) && CanExecute(w, h, order, s, actor, key) && Executed(w, h, s, actor, s')
    requires id in s.items
    ensures WasDecided(h, s.items, s'.items, id)
  {
    hide DomainAccepts;
    hide Executed;
    hide KeyHolds;
    ProcessSource(w, h, order, s, id);
    ExecutionResolvesItems(w, h, order, s, actor, key, s');
    assert ItemAccepted(s.items, s.items[id]) && ItemResolved(w, s.items[id], s'.items[id]);
    assert s.items[id].decision != CurrentDatabase;
    hide Constraints;
    if s.items[id].decision != Rejected && s.items[id].dependsOn.Some? {
      var d := s.items[id].dependsOn.value;
      assert ItemAccepted(s.items, s.items[d]) && ItemResolved(w, s.items[d], s'.items[d]);
    }
    hide GraphAccepted;
    hide ItemsResolved;
  }

  /** A successful execution adopts only what somebody confirmed, and nothing without the item it depends on. */
  lemma ExecutionWasDecided(w: World, h: Header, order: seq<ItemId>, s: State, actor: Actor, key: IdempotencyKey, s': State)
    requires Constraints(order, s.items, s.domain) && CanExecute(w, h, order, s, actor, key) && Executed(w, h, s, actor, s')
    ensures forall id | id in s.items :: WasDecided(h, s.items, s'.items, id)
  {
    hide *;
    forall id | id in s.items ensures WasDecided(h, s.items, s'.items, id) {
      DecidedItem(w, h, order, s, actor, key, s', id);
    }
  }
}
