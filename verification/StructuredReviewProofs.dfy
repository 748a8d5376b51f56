/** What every review decision keeps, and what a ready batch guarantees to the execution. */
module StructuredReviewProofs {
  import opened Options
  import opened Texts
  import opened StructuredModel
  import opened StructuredReview
  import opened StructuredExecution

  // ---- the invariant of a batch under review

  /** Status and decision of an item always agree, and nothing is adopted without having been confirmed. */
  predicate DecisionFits(i: Item) {
    && (i.decision == Rejected <==> i.status == ItemRejected)
    && (ConfirmedDecision(i.decision) <==> i.status.Confirmed? || i.status.Adopted?)
    && i.decision != CurrentDatabase
    && (i.status == Confirmed ==> i.confirmedBy.Some? && i.confirmedAt.Some?)
    && (i.decision == ConfirmedEdited ==>
          if i.kind == MetricSet then i.decisionSnapshot.EditedValue? else i.decisionSnapshot.EditedFields?)
  }

  /** Only process items depend on another item, namely on a stage item of the batch, by its key. */
  ghost predicate DependencyFits(items: Items, i: Item) {
    match i.dependsOn
    case None =>
      i.dependencyKey == "" && (i.kind == ProcessAnalysis && i.status == Confirmed ==>
                                  i.stageReference.Some? && i.stageReference.value.Existing?)
    case Some(d) =>
      && i.kind == ProcessAnalysis && StageWithKey(items, d, i.dependencyKey)
      && i.stageReference == Some(Local(i.dependencyKey))
      && (i.status == Confirmed ==> !InvalidDependency(items[d].status))
  }

  /** The local key of a metric item, made from the name of its field. */
  function MetricKey(path: string): string {
    var name := if |path| > |MetricPrefix()| then path[|MetricPrefix()|..] else "";
    "metric-" + seq(|name|, k requires 0 <= k < |name| => if name[k] == '_' then '-' else name[k])
  }

  function MetricPrefix(): string { "use_case.metric." }

  /** What an item is made with and keeps: a kind that suits the target, its key, and its sources. */
  predicate KindFits(h: Header, i: Item) {
    && i.source.analysis == h.analysis && Strip(i.source.extractionVersion) != ""
    && if h.targetType == UseCase
       then i.kind == MetricSet && i.targetPath in MetricPaths() && i.localKey == MetricKey(i.targetPath)
       else i.kind != MetricSet && ValidLocalKey(i.localKey) && i.groupKey == i.localKey
  }

  /** Neither review nor execution changes where an item comes from and what it is for. */
  predicate SameOrigin(i: Item, i': Item) {
    && i'.localKey == i.localKey && i'.kind == i.kind && i'.groupKey == i.groupKey
    && i'.targetPath == i.targetPath && i'.source == i.source
  }

  ghost predicate ItemsSound(h: Header, items: Items) {
    && LocalKeysUnique(items)
    && forall id | id in items :: DecisionFits(items[id]) && DependencyFits(items, items[id]) && KindFits(h, items[id])
  }

  /** The stored hash and key are those of the current items. */
  ghost predicate Sealed(h: Header, order: seq<ItemId>, s: State)
    requires IsOrder(order, s.items)
  {
    s.batch.graph == GraphHash(GraphOf(order, s.items)) && s.batch.key == KeyOf(h, s.batch.graph)
  }

  ghost predicate ReviewSound(h: Header, order: seq<ItemId>, s: State) {
    && IsOrder(order, s.items)
    && ItemsSound(h, s.items)
    && KeyHolds(h, s.batch, s.batch.key)
    && (s.batch.status != Committed ==>
          Sealed(h, order, s) && forall id | id in s.items :: s.items[id].status != Adopted)
  }

  // ---- creation

  /** An item as `_metric_items` and `_grouped_items` build it. */
  predicate FreshItem(h: Header, i: Item) {
    && KindFits(h, i) && (i.status.ItemOpen? || i.status.Ambiguous? || i.status.Invalid?) && i.decision == Pending
    && i.dependsOn == None && i.dependencyKey == "" && i.stageReference == None
  }

  lemma CreationIsSound(h: Header, order: seq<ItemId>, items: Items, domain: Domain, actor: Actor)
    requires IsOrder(order, items) && LocalKeysUnique(items)
    requires forall id | id in items :: FreshItem(h, items[id])
    ensures ReviewSound(h, order, NewReview(h, order, items, domain, actor))
  {
    hide KindFits;
    hide GraphOf;
  }

  // ---- decisions keep it

  lemma SealingSeals(h: Header, order: seq<ItemId>, s: State, s': State)
    requires IsOrder(order, s'.items) && s'.batch == SealBatch(h, order, s.batch, s'.items)
    ensures Sealed(h, order, s')
  {
  }

  lemma RejectedRow(w: World, items: Items, id: ItemId, actor: Actor, i: ItemId)
    requires id in items && i in items
    ensures var items' := RejectItem(w, items, id, actor);
            && items'.Keys == items.Keys
            && items'[i] == (if i == id then RejectedItem(w, items[i], actor)
                             else if items[id].kind == ValueStreamStage && Dependent(items[i], id) then Invalidated(w, items[i])
                             else items[i])
  {
  }

  lemma RejectKeepsDependency(w: World, items: Items, id: ItemId, actor: Actor, i: ItemId)
    requires id in items && i in items && DependencyFits(items, items[i])
    requires items[i].dependsOn.Some? ==> items[items[i].dependsOn.value].dependsOn == None
    ensures var items' := RejectItem(w, items, id, actor); i in items' && DependencyFits(items', items'[i])
  {
    hide InvalidDependency;
    var items' := RejectItem(w, items, id, actor);
    RejectedRow(w, items, id, actor, i);
    if items[i].dependsOn.Some? {
      RejectedRow(w, items, id, actor, items[i].dependsOn.value);
    }
    hide RejectItem;
  }

  lemma RejectKeepsDecision(w: World, items: Items, id: ItemId, actor: Actor, i: ItemId)
    requires id in items && i in items && DecisionFits(items[i]) && items[i].status != Adopted
    ensures var items' := RejectItem(w, items, id, actor);
            && i in items'
            && SameOrigin(items[i], items'[i]) && items'[i].status != Adopted
            && DecisionFits(items'[i])
  {
    RejectedRow(w, items, id, actor, i);
    hide RejectItem;
    hide Dependent;
  }

  lemma DependencyIsStage(h: Header, items: Items, i: ItemId)
    requires ItemsSound(h, items) && i in items
    ensures DecisionFits(items[i]) && DependencyFits(items, items[i]) && KindFits(h, items[i])
    ensures items[i].dependsOn.Some? ==>
              items[i].dependsOn.value in items && items[items[i].dependsOn.value].dependsOn == None
  {
    hide DecisionFits;
    hide InvalidDependency;
    if items[i].dependsOn.Some? {
      assert DependencyFits(items, items[items[i].dependsOn.value]);
    }
  }

  lemma SameKind(h: Header, i: Item, i': Item)
    requires KindFits(h, i) && SameOrigin(i, i')
    ensures KindFits(h, i') && i'.localKey == i.localKey
  {
    hide ValidLocalKey;
    hide MetricPaths;
    hide MetricKey;
  }

  lemma RejectKeepsItem(w: World, h: Header, items: Items, id: ItemId, actor: Actor, i: ItemId)
    requires ItemsSound(h, items) && id in items && i in items && items[i].status != Adopted
    ensures var items' := RejectItem(w, items, id, actor);
            && i in items' && items'[i].localKey == items[i].localKey && items'[i].status != Adopted
            && DecisionFits(items'[i]) && DependencyFits(items', items'[i]) && KindFits(h, items'[i])
  {
    hide *;
    DependencyIsStage(h, items, i);
    RejectKeepsDependency(w, items, id, actor, i);
    RejectKeepsDecision(w, items, id, actor, i);
    SameKind(h, items[i], RejectItem(w, items, id, actor)[i]);
  }

  lemma RejectKeepsItems(w: World, h: Header, items: Items, id: ItemId, actor: Actor)
    requires ItemsSound(h, items) && id in items && forall i | i in items :: items[i].status != Adopted
    ensures var items' := RejectItem(w, items, id, actor);
            ItemsSound(h, items') && items'.Keys == items.Keys && forall i | i in items :: items'[i].status != Adopted
  {
    hide RejectItem;
    hide DecisionFits;
    hide DependencyFits;
    hide KindFits;
    RejectedRow(w, items, id, actor, id);
    hide RejectedItem;
    hide Invalidated;
    hide Dependent;
    var items' := RejectItem(w, items, id, actor);
    forall i | i in items
      ensures items'[i].localKey == items[i].localKey && items'[i].status != Adopted
      ensures DecisionFits(items'[i]) && DependencyFits(items', items'[i]) && KindFits(h, items'[i])
    {
      RejectKeepsItem(w, h, items, id, actor, i);
    }
  }

  lemma ReplaceKeepsDependency(items: Items, id: ItemId, i: Item, j: ItemId)
    requires id in items && j in items && j != id && DependencyFits(items, items[j])
    requires i.localKey == items[id].localKey && i.kind == items[id].kind && !InvalidDependency(i.status)
    ensures DependencyFits(items[id := i], items[j])
  {
    hide InvalidDependency;
  }

  lemma ReplaceKeepsOwnDependency(items: Items, id: ItemId, i: Item)
    requires id in items && DependencyFits(items, i) && i.dependsOn != Some(id)
    ensures DependencyFits(items[id := i], i)
  {
    hide InvalidDependency;
  }

  /** Replacing one item by one of the same key and kind disturbs no other item's dependency. */
  lemma ReplaceKeepsItems(h: Header, items: Items, id: ItemId, i: Item)
    requires ItemsSound(h, items) && id in items
    requires SameOrigin(items[id], i)
    requires DecisionFits(i) && DependencyFits(items, i) && i.dependsOn != Some(id)
    requires !InvalidDependency(i.status)
    ensures ItemsSound(h, items[id := i])
  {
    hide InvalidDependency;
    hide DecisionFits;
    hide DependencyFits;
    hide KindFits;
    var items' := items[id := i];
    ReplaceKeepsOwnDependency(items, id, i);
    SameKind(h, items[id], i);
    forall j | j in items && j != id ensures DependencyFits(items', items'[j]) {
      ReplaceKeepsDependency(items, id, i, j);
    }
  }

  lemma ReferenceFits(h: Header, s: State, id: ItemId, input: ReferenceInput, bound: Item)
    requires ItemsSound(h, s.items) && id in s.items && s.items[id].kind == ProcessAnalysis
    requires SetReference(s.items, s.domain.stages, s.items[id], input, bound)
    ensures SameOrigin(s.items[id], bound)
    ensures bound.dependsOn != Some(id) && DependencyFits(s.items, bound.(status := Confirmed))
  {
    hide InvalidDependency;
  }

  lemma ConfirmedDecisionFits(w: World, id: ItemId, actor: Actor, action: ReviewAction, i: Item, bound: Item)
    requires !action.Reject? && Snapshot(w, id, i, action).Some? && bound.kind == i.kind
    ensures DecisionFits(ConfirmedItem(w, bound, actor, Snapshot(w, id, i, action).value))
  {
    hide FormsAccept;
  }

  lemma ConfirmingFits(w: World, items: Items, bound: Item, actor: Actor, snapshot: DecisionSnapshot)
    requires DependencyFits(items, bound.(status := Confirmed))
    ensures var i := ConfirmedItem(w, bound, actor, snapshot);
            && DependencyFits(items, i) && i.status == Confirmed
            && SameOrigin(bound, i)
            && i.dependsOn == bound.dependsOn
  {
    hide InvalidDependency;
  }

  /** The item a confirmation is applied to: bound to the chosen stage first if it is a process item. */
  ghost predicate Binds(s: State, id: ItemId, action: ReviewAction, bound: Item)
    requires id in s.items && !action.Reject?
  {
    if s.items[id].kind == ProcessAnalysis
    then SetReference(s.items, s.domain.stages, s.items[id], action.reference, bound)
    else bound == s.items[id]
  }

  lemma BoundItem(w: World, h: Header, s: State, id: ItemId, actor: Actor, action: ReviewAction, items': Items)
      returns (bound: Item)
    requires id in s.items && !action.Reject? && Confirms(w, h, s, id, actor, action, items')
    ensures Binds(s, id, action, bound) && Snapshot(w, id, s.items[id], action).Some?
    ensures items' == s.items[id := ConfirmedItem(w, bound, actor, Snapshot(w, id, s.items[id], action).value)]
  {
    hide SetReference;
    hide Snapshot;
    hide ConfirmedItem;
    bound := s.items[id];
    if s.items[id].kind == ProcessAnalysis {
      bound :| SetReference(s.items, s.domain.stages, s.items[id], action.reference, bound)
        && items' == s.items[id := ConfirmedItem(w, bound, actor, Snapshot(w, id, s.items[id], action).value)];
    }
  }

  lemma BoundFits(h: Header, s: State, id: ItemId, action: ReviewAction, bound: Item)
    requires ItemsSound(h, s.items) && id in s.items && !action.Reject? && Binds(s, id, action, bound)
    ensures SameOrigin(s.items[id], bound)
    ensures bound.dependsOn != Some(id) && DependencyFits(s.items, bound.(status := Confirmed))
  {
    DependencyIsStage(h, s.items, id);
    if s.items[id].kind == ProcessAnalysis {
      ReferenceFits(h, s, id, action.reference, bound);
    }
    hide SetReference;
  }

  lemma ConfirmedItemFits(w: World, h: Header, s: State, id: ItemId, actor: Actor, action: ReviewAction, items': Items)
    requires ItemsSound(h, s.items)
    requires id in s.items && !action.Reject? && Confirms(w, h, s, id, actor, action, items')
    ensures id in items' && items' == s.items[id := items'[id]]
    ensures var i := items'[id];
            && SameOrigin(s.items[id], i)
            && DecisionFits(i) && DependencyFits(s.items, i) && i.dependsOn != Some(id) && i.status == Confirmed
            && !InvalidDependency(i.status)
  {
    var bound := BoundItem(w, h, s, id, actor, action, items');
    BoundFits(h, s, id, action, bound);
    ConfirmingFits(w, s.items, bound, actor, Snapshot(w, id, s.items[id], action).value);
    ConfirmedDecisionFits(w, id, actor, action, s.items[id], bound);
    hide ConfirmedItem;
    hide Confirms;
    hide Snapshot;
    hide DependencyFits;
    hide DecisionFits;
    hide Binds;
    hide ItemsSound;
  }

  lemma ConfirmKeepsItems(w: World, h: Header, s: State, id: ItemId, actor: Actor, action: ReviewAction, items': Items)
    requires ItemsSound(h, s.items) && forall i | i in s.items :: s.items[i].status != Adopted
    requires id in s.items && !action.Reject? && Confirms(w, h, s, id, actor, action, items')
    ensures ItemsSound(h, items') && items'.Keys == s.items.Keys
    ensures forall i | i in s.items :: items'[i].status != Adopted
  {
    hide *;
    ConfirmedItemFits(w, h, s, id, actor, action, items');
    ReplaceKeepsItems(h, s.items, id, items'[id]);
  }

  /** A review decision keeps the batch sound: its items, and the seal over them. */
  lemma DecisionKeepsSound(w: World, h: Header, order: seq<ItemId>, s: State, id: ItemId, actor: Actor,
      action: ReviewAction, s': State)
    requires ReviewSound(h, order, s) && Decides(w, h, order, s, id, actor, action, s')
    ensures ReviewSound(h, order, s')
  {
    hide RejectItem;
    hide Confirms;
    hide ItemsSound;
    hide SealBatch;
    hide GraphOf;
    if action == Reject {
      RejectKeepsItems(w, h, s.items, id, actor);
    } else {
      ConfirmKeepsItems(w, h, s, id, actor, action, s'.items);
    }
    SealingSeals(h, order, s, s');
  }

  lemma CascadedRow(w: World, h: Header, order: seq<ItemId>, s: State, stage: ItemId, actor: Actor, s': State, i: ItemId)
    requires ReviewSound(h, order, s) && Decides(w, h, order, s, stage, actor, Reject, s') && i in s.items
    requires s.items[stage].kind == ValueStreamStage
    ensures s'.items.Keys == s.items.Keys
    ensures s'.items[i] == (if i == stage then RejectedItem(w, s.items[i], actor)
                            else if s.items[i].dependsOn == Some(stage) then Invalidated(w, s.items[i]) else s.items[i])
    ensures s.items[i].dependsOn == Some(stage) ==> i != stage
  {
    RejectedRow(w, s.items, stage, actor, i);
    DependencyIsStage(h, s.items, i);
    hide SealBatch;
    hide RejectItem;
    hide ItemsSound;
    hide Sealed;
    hide KeyHolds;
    hide RejectedItem;
    hide Invalidated;
  }

  /** Rejecting a stage leaves every item that depends on it pending, even one already rejected. */
  lemma RejectionCascades(w: World, h: Header, order: seq<ItemId>, s: State, stage: ItemId, actor: Actor, s': State)
    requires ReviewSound(h, order, s) && Decides(w, h, order, s, stage, actor, Reject, s')
    requires s.items[stage].kind == ValueStreamStage
    ensures s'.items[stage].status == ItemRejected && s'.items[stage].decision == Rejected
    ensures forall i | i in s.items && s.items[i].dependsOn == Some(stage) ::
              && s'.items[i].status == DependencyInvalid && s'.items[i].decision == Pending && s'.items[i].confirmedBy == None
              && s'.items[i].confirmedAt == None && s'.items[i].resolvedAt == Some(w.now) && s'.items[i].created == None
              && s'.items[i].error == StageDependencyRejected && SameOrigin(s.items[i], s'.items[i])
    ensures forall i | i in s.items && i != stage && s.items[i].dependsOn != Some(stage) :: s'.items[i] == s.items[i]
    ensures !Ready(s') || forall i | i in s.items :: s.items[i].dependsOn != Some(stage)
  {
    forall i | i in s.items
      ensures s'.items.Keys == s.items.Keys && (s.items[i].dependsOn == Some(stage) ==> i != stage)
      ensures s'.items[i] == (if i == stage then RejectedItem(w, s.items[i], actor)
                              else if s.items[i].dependsOn == Some(stage) then Invalidated(w, s.items[i]) else s.items[i])
    {
      CascadedRow(w, h, order, s, stage, actor, s', i);
    }
    hide Decides;
    hide ReviewSound;
  }

  /** A confirmation or an edit changes one item, notes who decided, and leaves what was proposed alone. */
  lemma ConfirmationFrame(w: World, h: Header, order: seq<ItemId>, s: State, id: ItemId, actor: Actor,
      action: ReviewAction, s': State)
    requires IsOrder(order, s.items) && !action.Reject? && Decides(w, h, order, s, id, actor, action, s')
    ensures forall i | i in s.items && i != id :: s'.items[i] == s.items[i]
    ensures var before, after := s.items[id], s'.items[id];
            && after.status == Confirmed && after.confirmedBy == Some(actor) && after.confirmedAt == Some(w.now)
            && after.resolvedAt == None && after.error == NoError
            && (after.decision == ConfirmedProposal <==> action.Confirm?)
            && after.proposed == before.proposed && after.interpretation == before.interpretation
            && after.source == before.source && after.localKey == before.localKey && after.kind == before.kind
            && (before.kind != ProcessAnalysis ==> after.stageReference == before.stageReference && after.dependsOn == before.dependsOn)
  {
    hide SealBatch;
    SnapshotTells(w, id, s.items[id], action);
    hide Snapshot;
    if s.items[id].kind == ProcessAnalysis {
      var bound: Item :| SetReference(s.items, s.domain.stages, s.items[id], action.reference, bound)
        && s'.items == s.items[id := ConfirmedItem(w, bound, actor, Snapshot(w, id, s.items[id], action).value)];
      BindingFrame(s.items, s.domain.stages, s.items[id], action.reference, bound);
      hide SetReference;
    }
    hide GraphOf;
  }

  lemma SnapshotTells(w: World, id: ItemId, i: Item, action: ReviewAction)
    requires !action.Reject? && Snapshot(w, id, i, action).Some?
    ensures Snapshot(w, id, i, action).value == NoEdit <==> action.Confirm?
  {
  }

  lemma BindingFrame(items: Items, stages: map<ObjectId, StageRow>, i: Item, input: ReferenceInput, bound: Item)
    requires SetReference(items, stages, i, input, bound)
    ensures bound == i.(stageReference := bound.stageReference, dependsOn := bound.dependsOn, dependencyKey := bound.dependencyKey)
  {
    hide InvalidDependency;
  }

  /** Every decision opens a failed batch again and forgets its failure; attempts are not forgotten. */
  lemma DecisionReopens(w: World, h: Header, order: seq<ItemId>, s: State, id: ItemId, actor: Actor,
      action: ReviewAction, s': State)
    requires IsOrder(order, s.items) && Decides(w, h, order, s, id, actor, action, s')
    ensures s'.batch.status == Open && s'.batch.attempts == s.batch.attempts
    ensures s.batch.status != Open ==>
              s'.batch.error == None && s'.batch.processingBy == None && s'.batch.completedAt == None && s'.batch.result == NoResult
    ensures s.batch.status == Open ==> s'.batch == s.batch.(graph := s'.batch.graph, key := s'.batch.key)
  {
    hide Confirms;
    hide RejectItem;
    hide GraphOf;
  }

  /** A rejection changes the rejected item and, if it is a stage, its dependents; nothing else. */
  lemma RejectionFrame(w: World, h: Header, order: seq<ItemId>, s: State, id: ItemId, actor: Actor, s': State)
    requires IsOrder(order, s.items) && Decides(w, h, order, s, id, actor, Reject, s')
    ensures forall i | i in s.items && i != id && !(s.items[id].kind == ValueStreamStage && Dependent(s.items[i], id)) ::
              s'.items[i] == s.items[i]
    ensures var before, after := s.items[id], s'.items[id];
            && after.status == ItemRejected && after.decision == Rejected && after.decisionSnapshot == NoEdit
            && after.confirmedBy == Some(actor) && after.confirmedAt == Some(w.now) && after.resolvedAt == Some(w.now)
            && after.error == NoError && SameOrigin(before, after)
            && after.proposed == before.proposed && after.stageReference == before.stageReference
            && after.dependsOn == before.dependsOn
  {
    hide SealBatch;
    hide GraphOf;
    forall i | i in s.items
      ensures s'.items[i] == (if i == id then RejectedItem(w, s.items[i], actor)
                              else if s.items[id].kind == ValueStreamStage && Dependent(s.items[i], id)
                                   then Invalidated(w, s.items[i]) else s.items[i])
    {
      RejectedRow(w, s.items, id, actor, i);
    }
    hide RejectItem;
    hide Dependent;
  }

  // ---- a ready batch

  lemma ReadyItemsConfirmed(h: Header, order: seq<ItemId>, s: State, id: ItemId)
    requires ReviewSound(h, order, s) && Ready(s) && id in s.items
    ensures s.items[id].decision == Rejected || s.items[id].status == Confirmed
    ensures ItemAccepted(s.items, s.items[id])
    ensures s.items[id].decision != Rejected ==> id in SelectedItems(s.items, s.items[id].kind)
  {
    assert ItemReady(s.items, s.items[id]);
    assert DecisionFits(s.items[id]) && DependencyFits(s.items, s.items[id]);
  }

  /** The values a stage or process item was confirmed with. */
  function FieldsOf(i: Item): Fields {
    if ConfirmedFields(i).Some? then ConfirmedFields(i).value else map[]
  }

  /** What can still go wrong with one item: the value checks, the forms, a collision, a changed metric. */
  ghost predicate FieldsAccepted(w: World, d: Domain, i: Item) {
    match i.kind
    case MetricSet => MetricUnchanged(d.metrics, i)
    case ValueStreamStage =>
      && ValidStageValues(FieldsOf(i)) && w.stageForm(StageValues(FieldsOf(i))).Some?
      && !Taken(d.stages, SequenceOf(i))
    case ProcessAnalysis =>
      && ValidProcessValues(FieldsOf(i)) && w.processForm(ProcessValues(FieldsOf(i))).Some?
      && (i.stageReference.Some? && i.stageReference.value.Existing? ==> i.stageReference.value.stage in d.stages)
  }

  /** The only ways a ready batch can still be refused by the domain. */
  ghost predicate DomainAgrees(w: World, h: Header, items: Items, d: Domain) {
    && (forall id | id in items && items[id].decision != Rejected :: FieldsAccepted(w, d, items[id]))
    && (match h.targetType
        case ValueStream => SequencesDistinct(items, SelectedItems(items, ValueStreamStage))
        case UseCase =>
          w.metricForm(EffectiveMetrics(items, d.metrics, SelectedItems(items, MetricSet))).Some?)
  }

  lemma ReadyStageItem(w: World, h: Header, order: seq<ItemId>, s: State, id: ItemId)
    requires ReviewSound(h, order, s) && Ready(s) && h.targetType == ValueStream
    requires id in s.items && s.items[id].kind == ValueStreamStage && s.items[id].decision != Rejected
    ensures FieldsAccepted(w, s.domain, s.items[id])
            <==> StageItemReady(w, s.items[id]) && !Taken(s.domain.stages, SequenceOf(s.items[id]))
  {
    DependencyIsStage(h, s.items, id);
    assert ItemReady(s.items, s.items[id]);
    hide ValidStageValues;
    hide StageValues;
    hide ValidLocalKey;
    hide Taken;
  }

  lemma ReadyProcessStage(h: Header, order: seq<ItemId>, s: State, id: ItemId)
    requires ReviewSound(h, order, s) && Ready(s) && h.targetType == ValueStream
    requires id in s.items && s.items[id].kind == ProcessAnalysis && s.items[id].decision != Rejected
    ensures var ref := s.items[id].stageReference;
            ref.Some? && (StageWillResolve(s.items, s.domain, s.items[id])
                          <==> (ref.value.Existing? ==> ref.value.stage in s.domain.stages))
  {
    hide ValidLocalKey;
    DependencyIsStage(h, s.items, id);
    var i := s.items[id];
    assert ItemReady(s.items, i);
    if i.dependsOn.Some? {
      DependencyIsStage(h, s.items, i.dependsOn.value);
    }
  }

  lemma ReadyProcessItem(w: World, h: Header, order: seq<ItemId>, s: State, id: ItemId)
    requires ReviewSound(h, order, s) && Ready(s) && h.targetType == ValueStream
    requires id in s.items && s.items[id].kind == ProcessAnalysis && s.items[id].decision != Rejected
    ensures FieldsAccepted(w, s.domain, s.items[id])
            <==> ProcessItemReady(w, h, s.items[id]) && StageWillResolve(s.items, s.domain, s.items[id])
  {
    ReadyProcessStage(h, order, s, id);
    DependencyIsStage(h, s.items, id);
    assert ItemReady(s.items, s.items[id]);
    hide StageWillResolve;
    hide ValidLocalKey;
    hide ValidProcessValues;
    hide ProcessValues;
    hide ReviewSound;
    hide Ready;
    hide DependencyFits;
  }

  lemma ReadyMetricItem(w: World, h: Header, order: seq<ItemId>, s: State, id: ItemId)
    requires ReviewSound(h, order, s) && Ready(s)
    requires id in s.items && s.items[id].kind == MetricSet && s.items[id].decision != Rejected
    ensures FieldsAccepted(w, s.domain, s.items[id]) <==> MetricItemReady(s.domain.metrics, s.items[id])
  {
    DependencyIsStage(h, s.items, id);
    assert ItemReady(s.items, s.items[id]);
  }

  /** In a ready batch the selected items of a kind are exactly the items of that kind not rejected. */
  lemma ReadySelection(h: Header, order: seq<ItemId>, s: State, id: ItemId)
    requires ReviewSound(h, order, s) && Ready(s) && id in s.items
    ensures id in SelectedItems(s.items, s.items[id].kind) <==> s.items[id].decision != Rejected
  {
    assert ItemReady(s.items, s.items[id]);
    assert DecisionFits(s.items[id]);
  }

  lemma ReadyStreamItem(w: World, h: Header, order: seq<ItemId>, s: State, id: ItemId)
    requires ReviewSound(h, order, s) && Ready(s) && h.targetType == ValueStream && id in s.items
    ensures s.items[id].kind != MetricSet
    ensures id in SelectedItems(s.items, s.items[id].kind) <==> s.items[id].decision != Rejected
    ensures s.items[id].decision != Rejected ==>
              (FieldsAccepted(w, s.domain, s.items[id]) <==>
                 if s.items[id].kind == ValueStreamStage
                 then StageItemReady(w, s.items[id]) && !Taken(s.domain.stages, SequenceOf(s.items[id]))
                 else ProcessItemReady(w, h, s.items[id]) && StageWillResolve(s.items, s.domain, s.items[id]))
  {
    DependencyIsStage(h, s.items, id);
    ReadySelection(h, order, s, id);
    if s.items[id].decision != Rejected {
      if s.items[id].kind == ValueStreamStage {
        ReadyStageItem(w, h, order, s, id);
      } else {
        ReadyProcessItem(w, h, order, s, id);
      }
    }
    hide FieldsAccepted;
    hide StageItemReady;
    hide ProcessItemReady;
    hide StageWillResolve;
    hide Taken;
    hide ReviewSound;
    hide Ready;
  }

  lemma ReadyStreamAccepts(w: World, h: Header, order: seq<ItemId>, s: State)
    requires ReviewSound(h, order, s) && Ready(s) && h.targetType == ValueStream
    requires DomainAccepts(w, h, s.items, s.domain)
    ensures DomainAgrees(w, h, s.items, s.domain)
  {
    hide FieldsAccepted;
    hide StageItemReady;
    hide ProcessItemReady;
    hide StageWillResolve;
    hide Taken;
    hide SequencesDistinct;
    hide ReviewSound;
    hide Ready;
    forall id | id in s.items && s.items[id].decision != Rejected
      ensures FieldsAccepted(w, s.domain, s.items[id])
    {
      ReadyStreamItem(w, h, order, s, id);
    }
  }

  lemma ReadyStagesAgree(w: World, h: Header, order: seq<ItemId>, s: State)
    requires ReviewSound(h, order, s) && Ready(s) && h.targetType == ValueStream
    requires DomainAgrees(w, h, s.items, s.domain)
    ensures StagesReady(w, s.items, s.domain, SelectedItems(s.items, ValueStreamStage))
  {
    hide FieldsAccepted;
    hide StageItemReady;
    hide Taken;
    hide SequencesDistinct;
    hide ReviewSound;
    hide Ready;
    var stages := SelectedItems(s.items, ValueStreamStage);
    forall id | id in stages ensures StageItemReady(w, s.items[id]) && !Taken(s.domain.stages, SequenceOf(s.items[id])) {
      ReadyStreamItem(w, h, order, s, id);
    }
  }

  lemma ReadyProcessesAgree(w: World, h: Header, order: seq<ItemId>, s: State)
    requires ReviewSound(h, order, s) && Ready(s) && h.targetType == ValueStream
    requires DomainAgrees(w, h, s.items, s.domain)
    ensures forall id | id in SelectedItems(s.items, ProcessAnalysis) ::
              ProcessItemReady(w, h, s.items[id]) && StageWillResolve(s.items, s.domain, s.items[id])
  {
    hide FieldsAccepted;
    hide ProcessItemReady;
    hide StageWillResolve;
    hide ReviewSound;
    hide Ready;
    forall id | id in SelectedItems(s.items, ProcessAnalysis)
      ensures ProcessItemReady(w, h, s.items[id]) && StageWillResolve(s.items, s.domain, s.items[id])
    {
      ReadyStreamItem(w, h, order, s, id);
    }
  }

  lemma KindSuits(h: Header, i: Item)
    requires KindFits(h, i)
    ensures i.kind == MetricSet <==> h.targetType == UseCase
  {
    hide ValidLocalKey;
    hide MetricPaths;
    hide MetricKey;
  }

  lemma ReadyStreamKinds(h: Header, order: seq<ItemId>, s: State)
    requires ReviewSound(h, order, s) && Ready(s) && h.targetType == ValueStream
    ensures KindsAllowed(s.items, {ValueStreamStage, ProcessAnalysis})
    ensures SelectedItems(s.items, ValueStreamStage) + SelectedItems(s.items, ProcessAnalysis) != {}
  {
    hide KindFits;
    var some :| some in s.items && s.items[some].decision != Rejected;
    ReadySelection(h, order, s, some);
    forall id | id in s.items ensures s.items[id].kind != MetricSet {
      DependencyIsStage(h, s.items, id);
      KindSuits(h, s.items[id]);
    }
    hide ReviewSound;
    hide Ready;
    assert some in SelectedItems(s.items, ValueStreamStage) + SelectedItems(s.items, ProcessAnalysis);
  }

  lemma ReadyStreamDomain(w: World, h: Header, order: seq<ItemId>, s: State)
    requires ReviewSound(h, order, s) && Ready(s) && h.targetType == ValueStream
    ensures DomainAccepts(w, h, s.items, s.domain) <==> DomainAgrees(w, h, s.items, s.domain)
  {
    if DomainAccepts(w, h, s.items, s.domain) {
      ReadyStreamAccepts(w, h, order, s);
    }
    if DomainAgrees(w, h, s.items, s.domain) {
      ReadyStagesAgree(w, h, order, s);
      ReadyProcessesAgree(w, h, order, s);
      ReadyStreamKinds(h, order, s);
    }
    hide DomainAgrees;
    hide ReviewSound;
    hide Ready;
    hide StagesReady;
    hide ProcessItemReady;
    hide StageWillResolve;
  }

  /** A metric path has one item: its local key is made from the path, and local keys are unique. */
  lemma MetricPathsUnique(h: Header, items: Items, ids: set<ItemId>)
    requires ItemsSound(h, items) && h.targetType == UseCase && ids <= items.Keys
    ensures PathsUnique(items, ids)
  {
    forall a, b | a in ids && b in ids && items[a].targetPath == items[b].targetPath ensures a == b {
      DependencyIsStage(h, items, a);
      DependencyIsStage(h, items, b);
    }
  }

  lemma ReadyMetricSelection(w: World, h: Header, order: seq<ItemId>, s: State, id: ItemId)
    requires ReviewSound(h, order, s) && Ready(s) && h.targetType == UseCase && id in s.items
    ensures s.items[id].kind == MetricSet
    ensures id in SelectedItems(s.items, MetricSet) <==> s.items[id].decision != Rejected
    ensures s.items[id].decision != Rejected ==>
              (FieldsAccepted(w, s.domain, s.items[id]) <==> MetricItemReady(s.domain.metrics, s.items[id]))
  {
    hide KindFits;
    hide FieldsAccepted;
    hide MetricItemReady;
    DependencyIsStage(h, s.items, id);
    KindSuits(h, s.items[id]);
    ReadySelection(h, order, s, id);
    if s.items[id].decision != Rejected {
      ReadyMetricItem(w, h, order, s, id);
    }
    hide SelectedItems;
    hide Ready;
  }

  lemma MetricsAccepted(w: World, h: Header, items: Items, d: Domain)
    requires h.targetType == UseCase && KindsAllowed(items, {MetricSet})
    requires var ids := SelectedItems(items, MetricSet); ids != {} && ids <= items.Keys && PathsUnique(items, ids)
    ensures var ids := SelectedItems(items, MetricSet);
            DomainAccepts(w, h, items, d) <==>
              (forall id | id in ids :: MetricItemReady(d.metrics, items[id])) && w.metricForm(EffectiveMetrics(items, d.metrics, ids)).Some?
  {
    hide SelectedItems;
    hide KindsAllowed;
    hide PathsUnique;
    hide MetricItemReady;
    hide EffectiveMetrics;
  }

  lemma ReadyMetricDomain(w: World, h: Header, order: seq<ItemId>, s: State)
    requires ReviewSound(h, order, s) && Ready(s) && h.targetType == UseCase
    ensures DomainAccepts(w, h, s.items, s.domain) <==> DomainAgrees(w, h, s.items, s.domain)
  {
    hide DomainAccepts;
    hide FieldsAccepted;
    hide MetricItemReady;
    hide ItemsSound;
    hide ItemReady;
    hide PathsUnique;
    hide EffectiveMetrics;
    hide SelectedItems;
    hide KindsAllowed;
    var some :| some in s.items && s.items[some].decision != Rejected;
    SelectedKnown(s.items, MetricSet);
    MetricPathsUnique(h, s.items, SelectedItems(s.items, MetricSet));
    forall id | id in s.items
      ensures s.items[id].kind == MetricSet
      ensures id in SelectedItems(s.items, MetricSet) <==> s.items[id].decision != Rejected
      ensures s.items[id].decision != Rejected ==>
                (FieldsAccepted(w, s.domain, s.items[id]) <==> MetricItemReady(s.domain.metrics, s.items[id]))
    {
      ReadyMetricSelection(w, h, order, s, id);
    }
    hide ReviewSound;
    hide Ready;
    assert some in SelectedItems(s.items, MetricSet);
    OnlyMetrics(s.items);
    MetricsAccepted(w, h, s.items, s.domain);
  }

  lemma OnlyMetrics(items: Items)
    requires forall id | id in items :: items[id].kind == MetricSet
    ensures KindsAllowed(items, {MetricSet})
  {
  }

  lemma SelectedKnown(items: Items, kind: Kind)
    ensures SelectedItems(items, kind) <= items.Keys
  {
  }

  lemma ReadyIsAccepted(h: Header, order: seq<ItemId>, s: State)
    requires ReviewSound(h, order, s) && Ready(s)
    ensures GraphAccepted(order, s)
  {
    forall id | id in s.items ensures ItemAccepted(s.items, s.items[id]) {
      ReadyItemsConfirmed(h, order, s, id);
    }
    hide ItemAccepted;
  }

  /**
   * Ready implies executable: in every batch the review can reach, a ready batch can be reserved
   * with its stored key, its graph is then accepted, every process bound to a local stage will find
   * it, and the execution succeeds exactly when the target still exists, the actor may edit it, the
   * capture snapshots are current, and the domain agrees: what may still be left as an objection is a
   * field check or form, a sequence collision, a vanished existing stage or a changed metric.
   */
  lemma ReadyImpliesExecutable(w: World, h: Header, order: seq<ItemId>, s: State, actor: Actor)
    requires ReviewSound(h, order, s) && Ready(s)
    ensures ReservationOf(h, s.batch, s.batch.key) == Reserved(s.batch.attempts + 1)
    ensures var reserved := s.(batch := ReserveBatch(h, s.batch, actor, s.batch.key));
            && GraphAccepted(order, reserved)
            && (CanExecute(w, h, order, reserved, actor, s.batch.key) <==>
                  && w.targetExists && w.canEdit(actor) && w.sessionCurrent && w.analysisCurrent
                  && DomainAgrees(w, h, s.items, s.domain))
  {
    hide DomainAccepts;
    hide DomainAgrees;
    hide ItemAccepted;
    hide ItemsSound;
    hide ItemReady;
    ReadyIsAccepted(h, order, s);
    if h.targetType == ValueStream {
      ReadyStreamDomain(w, h, order, s);
    } else {
      ReadyMetricDomain(w, h, order, s);
    }
    var reserved := s.(batch := ReserveBatch(h, s.batch, actor, s.batch.key));
  }

  /** A batch shows as ready exactly if it is open or failed and each item is rejected, or confirmed like what it depends on. */
  lemma ReadyIff(h: Header, order: seq<ItemId>, s: State)
    requires ReviewSound(h, order, s)
    ensures Ready(s) <==>
              && s.batch.status in {BatchStatus.Open, BatchStatus.Failed}
              && (forall id | id in s.items :: s.items[id].status in {ItemRejected, ItemStatus.Confirmed})
              && (forall id | id in s.items && s.items[id].status == ItemStatus.Confirmed && s.items[id].dependsOn.Some? ::
                    s.items[id].dependsOn.value in s.items && s.items[s.items[id].dependsOn.value].status == ItemStatus.Confirmed)
              && exists id :: id in s.items && s.items[id].status == ItemStatus.Confirmed
  {
    forall id | id in s.items ensures DecisionFits(s.items[id]) {
      DependencyIsStage(h, s.items, id);
    }
    hide ItemsSound;
    hide Sealed;
    hide KeyHolds;
  }
}
