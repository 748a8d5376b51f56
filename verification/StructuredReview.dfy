/** Reviewing a batch item by item: decisions, the dependency cascade, and sealing after each of them. */
module StructuredReview {
  import opened Options
  import opened StructuredModel

  /** The `stage_reference` argument after splitting at the colon. */
  datatype ReferenceInput = Malformed | ExistingStage(stage: ObjectId) | LocalStage(key: string)

  datatype ReviewAction =
    | Reject
    | Confirm(reference: ReferenceInput)
    | Edit(value: Cell, fields: Fields, reference: ReferenceInput)

  predicate Editable(s: BatchStatus) { !s.Processing? && !s.Committed? && !s.BatchRejected? }

  /** `_assert_batch_editable` */
  predicate MayEdit(w: World, h: Header, b: Batch, actor: Actor) {
    h.createdBy == actor && w.targetExists && w.canEdit(actor) && Editable(b.status)
  }

  /** `_seal_batch`: hash and key are taken anew; a failed batch is opened again. */
  function SealBatch(h: Header, order: seq<ItemId>, b: Batch, items: Items): Batch
    requires IsOrder(order, items)
  {
    var graph := GraphHash(GraphOf(order, items));
    var sealed := b.(graph := graph, key := KeyOf(h, graph));
    if b.status.Failed? || b.status.Conflict? || b.status.Stale? then
      sealed.(status := Open, processingBy := None, completedAt := None, error := None, result := NoResult)
    else sealed
  }

  /** The batch row `get_or_create_review_batch` inserts before the items are sealed. */
  function NewBatch(): Batch {
    Batch(Placeholder, NoGraph, Open, None, None, 0, NoResult, None)
  }

  /** A new review: the items as built from the suggestions, sealed. */
  function NewReview(h: Header, order: seq<ItemId>, items: Items, domain: Domain, actor: Actor): State
    requires IsOrder(order, items)
  {
    var batch := SealBatch(h, order, NewBatch(), items);
    State(batch, items, domain, [Audit(CreatedEvent, actor, None, batch.key, 0)])
  }

  predicate StageWithKey(items: Items, id: ItemId, key: string) {
    id in items && items[id].kind == ValueStreamStage && items[id].localKey == key
  }

  /** The items to invalidate when a stage item is rejected. */
  predicate Dependent(i: Item, stage: ItemId) {
    i.dependsOn == Some(stage) && i.kind == ProcessAnalysis && i.status != Adopted
  }

  function Invalidated(w: World, i: Item): Item {
    i.(status := DependencyInvalid, decision := Pending, confirmedBy := None, confirmedAt := None,
       resolvedAt := Some(w.now), created := None, error := StageDependencyRejected)
  }

  function Cascade(w: World, items: Items, stage: ItemId): Items {
    map id | id in items :: if Dependent(items[id], stage) then Invalidated(w, items[id]) else items[id]
  }

  function RejectedItem(w: World, i: Item, actor: Actor): Item {
    i.(status := ItemRejected, decision := Rejected, decisionSnapshot := NoEdit, confirmedBy := Some(actor),
       confirmedAt := Some(w.now), resolvedAt := Some(w.now), error := NoError)
  }

  function RejectItem(w: World, items: Items, id: ItemId, actor: Actor): Items
    requires id in items
  {
    var rejected := items[id := RejectedItem(w, items[id], actor)];
    if items[id].kind == ValueStreamStage then Cascade(w, rejected, id) else rejected
  }

  function ConfirmedItem(w: World, i: Item, actor: Actor, snapshot: DecisionSnapshot): Item {
    i.(status := Confirmed, decision := if snapshot == NoEdit then ConfirmedProposal else ConfirmedEdited,
       decisionSnapshot := snapshot, confirmedBy := Some(actor), confirmedAt := Some(w.now), resolvedAt := None,
       error := NoError)
  }

  /** `_set_process_reference`: the item bound to the chosen stage, or an error. */
  ghost predicate SetReference(items: Items, stages: map<ObjectId, StageRow>, i: Item, input: ReferenceInput, bound: Item) {
    match input
    case Malformed => false
    case ExistingStage(stage) =>
      stage in stages && bound == i.(stageReference := Some(Existing(stage)), dependsOn := None, dependencyKey := "")
    case LocalStage(key) =>
      exists d | StageWithKey(items, d, key) :: !InvalidDependency(items[d].status)
        && bound == i.(stageReference := Some(Local(key)), dependsOn := Some(d), dependencyKey := key)
  }

  /** What the review stores of a confirmation or an edit: the snapshot, if the input is acceptable. */
  function Snapshot(w: World, id: ItemId, i: Item, action: ReviewAction): Option<DecisionSnapshot>
    requires !action.Reject?
  {
    match action
    case Confirm(_) =>
      if !i.interpretation.valid || w.uncertain(id) || !FormsAccept(w, i, i.interpretation.fields) then None
      else Some(NoEdit)
    case Edit(value, fields, _) =>
      if i.kind == MetricSet then
        (match w.normalizeMetric(i.targetPath, value)
         case None => None
         case Some(v) => Some(EditedValue(v)))
      else
        match w.normalizeFields(i.kind, fields)
        case None => None
        case Some(fs) => if FormsAccept(w, i, fs) then Some(EditedFields(fs)) else None
  }

  predicate FormsAccept(w: World, i: Item, fields: Fields) {
    match i.kind
    case MetricSet => true
    case ValueStreamStage => w.stageForm(fields).Some?
    case ProcessAnalysis => w.processForm(fields).Some?
  }

  /** A successful confirmation or edit of one item. */
  ghost predicate Confirms(w: World, h: Header, s: State, id: ItemId, actor: Actor, action: ReviewAction, items': Items)
    requires id in s.items && !action.Reject?
  {
    var i := s.items[id];
    var snapshot := Snapshot(w, id, i, action);
    && snapshot.Some?
    && if i.kind == ProcessAnalysis then
         h.targetType == ValueStream
         && exists bound: Item :: SetReference(s.items, s.domain.stages, i, action.reference, bound)
              && items' == s.items[id := ConfirmedItem(w, bound, actor, snapshot.value)]
       else
         items' == s.items[id := ConfirmedItem(w, i, actor, snapshot.value)]
  }

  /** A successful call of `decide_review_item`, as a change of the rows. */
  ghost predicate Decides(w: World, h: Header, order: seq<ItemId>, s: State, id: ItemId, actor: Actor,
    action: ReviewAction, s': State)
    requires IsOrder(order, s.items)
  {
    && MayEdit(w, h, s.batch, actor)
    && id in s.items
    && (if action == Reject then s'.items == RejectItem(w, s.items, id, actor)
        else Confirms(w, h, s, id, actor, action, s'.items))
    && s'.items.Keys == s.items.Keys
    && s'.batch == SealBatch(h, order, s.batch, s'.items)
    && s'.domain == s.domain
    && s'.audits == s.audits + [Audit(if action == Reject then RejectedEvent else ConfirmedEvent,
                                      actor, Some(id), s'.batch.key, s.batch.attempts)]
  }

  /** `review_batch_ready` */
  ghost predicate Ready(s: State) {
    && s.items != map[] && (s.batch.status.Open? || s.batch.status.Failed?)
    && (forall id | id in s.items :: ItemReady(s.items, s.items[id]))
    && (exists id | id in s.items :: s.items[id].decision != Rejected)
  }

  predicate ItemReady(items: Items, i: Item) {
    if i.decision == Rejected then i.status == ItemRejected
    else
      && ConfirmedDecision(i.decision) && i.status == Confirmed
      && (i.dependsOn.Some? ==>
            i.dependsOn.value in items && items[i.dependsOn.value].decision != Rejected
            && items[i.dependsOn.value].status == Confirmed)
  }

  /** Whether the chosen stage may be bound. */
  ghost predicate ReferenceAccepted(items: Items, stages: map<ObjectId, StageRow>, input: ReferenceInput) {
    match input
    case Malformed => false
    case ExistingStage(stage) => stage in stages
    case LocalStage(key) => exists d | StageWithKey(items, d, key) :: !InvalidDependency(items[d].status)
  }

  /** Exactly when a decision is taken rather than refused. */
  ghost predicate MayDecide(w: World, h: Header, s: State, id: ItemId, actor: Actor, action: ReviewAction) {
    && MayEdit(w, h, s.batch, actor) && id in s.items
    && (action.Reject? ||
        (&& Snapshot(w, id, s.items[id], action).Some?
         && (s.items[id].kind == ProcessAnalysis ==>
               h.targetType == ValueStream && ReferenceAccepted(s.items, s.domain.stages, action.reference))))
  }
}
