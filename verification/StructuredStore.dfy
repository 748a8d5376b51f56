/** The rows of one batch and the transactions that update them. */
module StructuredStore {
  import opened Options
  import opened StructuredModel
  import opened StructuredReview
  import opened StructuredExecution
  import opened StructuredSteps

  class Store {
    const header: Header
    const order: seq<ItemId>
    var batch: Batch
    var items: Items
    var domain: Domain
    var audits: seq<Audit>

    ghost function Rows(): State
      reads this
    {
      State(batch, items, domain, audits)
    }

    ghost predicate Valid()
      reads this
    {
      Constraints(order, items, domain)
    }

    /** `get_or_create_review_batch`, once the items are built: store them, seal, note the creation. */
    constructor (h: Header, order: seq<ItemId>, items: Items, domain: Domain, actor: Actor)
      requires IsOrder(order, items) && LocalKeysUnique(items) && Allocated(domain)
      requires forall id | id in items :: items[id].stageReference == None && items[id].decision == Pending
      ensures Valid() && header == h && this.order == order && Rows() == NewReview(h, order, items, domain, actor)
    {
      header, this.order := h, order;
      batch, this.items, this.domain, audits := NewBatch(), items, domain, [];
      new;
      SealBatch();
      audits := [Audit(CreatedEvent, actor, None, batch.key, batch.attempts)];
    }

    // ---- review

    method SealBatch()
      requires IsOrder(order, items)
      modifies this`batch
      ensures batch == StructuredReview.SealBatch(header, order, old(batch), items)
      ensures batch.graph == GraphHash(GraphOf(order, items)) && KeyHolds(header, batch, batch.key)
      ensures batch.attempts == old(batch).attempts && !batch.status.Failed? && !batch.status.Conflict? && !batch.status.Stale?
    {
      var graph := GraphHash(GraphOf(order, items));
      batch := batch.(graph := graph, key := KeyOf(header, graph));
      if batch.status.Failed? || batch.status.Conflict? || batch.status.Stale? {
        batch := batch.(status := Open, processingBy := None, completedAt := None, error := None, result := NoResult);
      }
    }

    method CascadeInvalidateStageDependents(w: World, stage: ItemId)
      modifies this`items
      ensures items == Cascade(w, old(items), stage)
      ensures items.Keys == old(items).Keys
      ensures forall id | id in items && !Dependent(old(items)[id], stage) :: items[id] == old(items)[id]
      ensures forall id | id in items && Dependent(old(items)[id], stage) ::
                items[id].status == DependencyInvalid && items[id].decision == Pending && items[id].confirmedBy == None
    {
      items := map id | id in items :: if Dependent(items[id], stage) then Invalidated(w, items[id]) else items[id];
    }

    /** Looks up the stage item with a key by going through the batch. */
    method FindStageItem(key: string) returns (found: Option<ItemId>)
      requires IsOrder(order, items)
      ensures found.Some? ==> StageWithKey(items, found.value, key)
      ensures found.None? ==> forall id :: !StageWithKey(items, id, key)
    {
      for n := 0 to |order|
        invariant forall k | 0 <= k < n :: !StageWithKey(items, order[k], key)
      {
        assert order[n] in order;
        var i := items[order[n]];
        if i.kind == ValueStreamStage && i.localKey == key {
          return Some(order[n]);
        }
      }
      return None;
    }

    method SetProcessReference(id: ItemId, input: ReferenceInput) returns (bound: Option<Item>)
      requires IsOrder(order, items) && LocalKeysUnique(items) && id in items
      ensures bound.Some? <==> ReferenceAccepted(items, domain.stages, input)
      ensures bound.Some? ==> SetReference(items, domain.stages, items[id], input, bound.value)
    {
      var i := items[id];
      match input
      case Malformed =>
        bound := None;
      case ExistingStage(stage) =>
        if stage !in domain.stages {
          return None;
        }
        bound := Some(i.(stageReference := Some(Existing(stage)), dependsOn := None, dependencyKey := ""));
      case LocalStage(key) =>
        var d := FindStageItem(key);
        if d.None? || InvalidDependency(items[d.value].status) {
          return None;
        }
        bound := Some(i.(stageReference := Some(Local(key)), dependsOn := d, dependencyKey := key));
    }

    method RejectReviewItem(w: World, id: ItemId, actor: Actor)
      requires id in items
      modifies this`items
      ensures items == RejectItem(w, old(items), id, actor)
      ensures items.Keys == old(items).Keys && items[id].status == ItemRejected && items[id].confirmedBy == Some(actor)
      ensures old(items)[id].kind != ValueStreamStage ==> forall i | i in items && i != id :: items[i] == old(items)[i]
    {
      var isStage := items[id].kind == ValueStreamStage;
      items := items[id := RejectedItem(w, items[id], actor)];
      if isStage {
        CascadeInvalidateStageDependents(w, id);
      }
    }

    method ConfirmReviewItem(w: World, id: ItemId, actor: Actor, action: ReviewAction) returns (confirmed: bool)
      requires IsOrder(order, items) && LocalKeysUnique(items) && id in items && !action.Reject?
      modifies this`items
      ensures confirmed <==>
                && Snapshot(w, id, old(items)[id], action).Some?
                && (old(items)[id].kind == ProcessAnalysis ==>
                      header.targetType == ValueStream && ReferenceAccepted(old(items), domain.stages, action.reference))
      ensures confirmed ==> Confirms(w, header, old(Rows()), id, actor, action, items)
      ensures confirmed ==> items.Keys == old(items).Keys
      ensures !confirmed ==> items == old(items)
    {
      hide Snapshot;
      hide ConfirmedItem;
      var snapshot := Snapshot(w, id, items[id], action);
      if snapshot.None? {
        return false;
      }
      var bound := items[id];
      if bound.kind == ProcessAnalysis {
        if header.targetType != ValueStream {
          return false;
        }
        var reference := SetProcessReference(id, action.reference);
        hide SetReference;
        hide ReferenceAccepted;
        if reference.None? {
          return false;
        }
        bound := reference.value;
      }
      items := items[id := ConfirmedItem(w, bound, actor, snapshot.value)];
      return true;
    }

    method DecideReviewItem(w: World, id: ItemId, actor: Actor, action: ReviewAction) returns (decided: bool)
      requires Valid()
      modifies this
      ensures Valid()
      ensures decided <==> MayDecide(w, header, old(Rows()), id, actor, action)
      ensures decided ==> Decides(w, header, order, old(Rows()), id, actor, action, Rows())
      ensures !decided ==> Rows() == old(Rows())
    {
      hide Confirms;
      hide RejectItem;
      hide Snapshot;
      hide ReferenceAccepted;
      hide ReferenceWithin;
      if !MayEdit(w, header, batch, actor) || id !in items {
        return false;
      }
      var event := RejectedEvent;
      if action == Reject {
        RejectionKeepsConstraints(w, order, Rows(), id, actor);
        RejectReviewItem(w, id, actor);
      } else {
        var confirmed := ConfirmReviewItem(w, id, actor, action);
        if !confirmed {
          return false;
        }
        ConfirmationKeepsConstraints(w, header, order, old(Rows()), id, actor, action, items);
        event := ConfirmedEvent;
      }
      SealBatch();
      hide StructuredReview.SealBatch;
      audits := audits + [Audit(event, actor, Some(id), batch.key, batch.attempts)];
      return true;
    }

    /** `review_batch_ready`, which reads the rows without locking them. */
    method ReviewBatchReady() returns (ready: bool)
      requires IsOrder(order, items)
      ensures ready <==> Ready(Rows())
    {
      if items == map[] || !(batch.status.Open? || batch.status.Failed?) {
        return false;
      }
      var selected := 0;
      for n := 0 to |order|
        invariant forall k | 0 <= k < n :: order[k] in items && ItemReady(items, items[order[k]])
        invariant selected > 0 <==> exists k | 0 <= k < n :: order[k] in items && items[order[k]].decision != Rejected
        invariant selected >= 0
      {
        assert order[n] in order;
        if !ItemReady(items, items[order[n]]) {
          return false;
        }
        if items[order[n]].decision != Rejected {
          selected := selected + 1;
        }
      }
      return selected > 0;
    }

    // ---- reservation and failure

    method ReserveBatch(actor: Actor, key: IdempotencyKey) returns (r: Reservation)
      modifies this`batch
      ensures r == ReservationOf(header, old(batch), key)
      ensures batch == StructuredExecution.ReserveBatch(header, old(batch), actor, key)
      ensures r.Reserved? <==> KeyHolds(header, old(batch), key) && (old(batch).status.Open? || old(batch).status.Failed?)
      ensures r.Reserved? ==> batch.status == Processing && batch.processingBy == Some(actor)
                              && r.attempt == batch.attempts == old(batch).attempts + 1
      ensures !r.Reserved? ==> batch == old(batch)
    {
      if !KeyHolds(header, batch, key) {
        return Refused;
      }
      if batch.status == Committed {
        return Replay(batch.attempts, batch.result);
      }
      if !(batch.status.Open? || batch.status.Failed?) {
        return Refused;
      }
      batch := batch.(status := Processing, processingBy := Some(actor), completedAt := None,
        attempts := batch.attempts + 1, result := NoResult, error := None);
      return Reserved(batch.attempts);
    }

    method RecordFailure(w: World, actor: Actor, e: CommitError)
      modifies this`batch, this`audits
      ensures Rows() == StructuredExecution.RecordFailure(w, old(Rows()), actor, e)
      ensures old(batch).status == Committed ==> batch == old(batch) && audits == old(audits)
      ensures old(batch).status != Committed ==>
                batch.status == FailureStatus(e) && batch.processingBy == None && |audits| == |old(audits)| + 1
    {
      if batch.status == Committed {
        return;
      }
      batch := batch.(status := FailureStatus(e), error := Some(e), completedAt := Some(w.now), processingBy := None);
      var event := if batch.status == Conflict then ConflictEvent else FailedEvent;
      audits := audits + [Audit(event, actor, None, batch.key, batch.attempts)];
    }

    // ---- execution

    method AssertItemGraph() returns (accepted: bool)
      requires IsOrder(order, items)
      ensures accepted <==> GraphAccepted(order, Rows())
    {
      hide ItemAccepted;
      hide GraphOf;
      if items == map[] || batch.graph != GraphHash(GraphOf(order, items)) {
        return false;
      }
      for n := 0 to |order|
        invariant forall k | 0 <= k < n :: order[k] in items && ItemAccepted(items, items[order[k]])
      {
        assert order[n] in order;
        if !ItemAccepted(items, items[order[n]]) {
          return false;
        }
      }
      return true;
    }

    /** The first loop of `prepare_stage_forms`: each item by itself, and the batch's own sequences. */
    method CheckStageItems(ids: seq<ItemId>) returns (ok: bool, conflict: bool)
      requires Distinct(ids) && forall id | id in ids :: id in items
      ensures ok <==> (forall id | id in ids :: StageValuesReady(items[id])) && SequencesDistinct(items, SetOf(ids))
      ensures conflict <==> exists n :: RepeatsAt(items, ids, n)
    {
      hide StageValuesReady;
      hide SequenceOf;
      var sequences: map<int, ItemId> := map[];
      for n := 0 to |ids|
        invariant forall k | 0 <= k < n :: StageValuesReady(items[ids[k]])
        invariant forall k | 0 <= k < n :: SequenceOf(items[ids[k]]) in sequences && sequences[SequenceOf(items[ids[k]])] == ids[k]
        invariant forall q | q in sequences :: sequences[q] in ids[..n] && SequenceOf(items[sequences[q]]) == q
      {
        var i := items[ids[n]];
        if !StageValuesReady(i) {
          return false, false;
        }
        if SequenceOf(i) in sequences {
          assert ids[n] in SetOf(ids) && sequences[SequenceOf(i)] in SetOf(ids);
          assert ids[n] !in ids[..n];
          assert RepeatsAt(items, ids, n);
          return false, true;
        }
        sequences := sequences[SequenceOf(i) := ids[n]];
      }
      return true, false;
    }

    /** No stage of the stream has a sequence of the batch. */
    method CheckTaken(ids: seq<ItemId>) returns (free: bool)
      requires forall id | id in ids :: id in items
      ensures free <==> forall id | id in ids :: !Taken(domain.stages, SequenceOf(items[id]))
    {
      hide Taken;
      hide SequenceOf;
      for n := 0 to |ids|
        invariant forall k | 0 <= k < n :: !Taken(domain.stages, SequenceOf(items[ids[k]]))
      {
        if Taken(domain.stages, SequenceOf(items[ids[n]])) {
          return false;
        }
      }
      return true;
    }

    method CheckStageForms(w: World, ids: seq<ItemId>) returns (ok: bool)
      requires forall id | id in ids :: id in items && StageValuesReady(items[id])
      ensures ok <==> forall id | id in ids :: StageItemReady(w, items[id])
    {
      hide StageValuesReady;
      hide StageValues;
      for n := 0 to |ids|
        invariant forall k | 0 <= k < n :: StageItemReady(w, items[ids[k]])
      {
        if !StageItemReady(w, items[ids[n]]) {
          return false;
        }
      }
      return true;
    }

    /** `prepare_stage_forms`: every check on the stage items, before the first of them is inserted. */
    method PrepareStageForms(w: World, ids: seq<ItemId>) returns (ok: bool, conflict: bool)
      requires Distinct(ids) && forall id | id in ids :: id in items
      ensures ok <==> StagesReady(w, items, domain, SetOf(ids))
      ensures conflict <==> StagesClash(items, domain, ids)
      ensures ok ==> !conflict
    {
      hide StageValuesReady;
      hide Taken;
      hide SequenceOf;
      hide SequencesDistinct;
      hide Distinct;
      ok, conflict := CheckStageItems(ids);
      if forall id | id in ids :: StageValuesReady(items[id]) {
        RepeatsIff(items, ids);
      }
      hide RepeatsAt;
      if !ok {
        return;
      }
      var free := CheckTaken(ids);
      assert forall id :: id in ids <==> id in SetOf(ids);
      hide SetOf;
      if !free {
        return false, true;
      }
      ok := CheckStageForms(w, ids);
      conflict := false;
    }

    method CreateStage(w: World, id: ItemId) returns (stage: ObjectId)
      requires id in items && StageItemReady(w, items[id])
      modifies this`items, this`domain
      ensures Rows() == WithStage(w, old(Rows()), id, StageRowOf(w, old(items)[id]))
      ensures id in items && items[id].created == Some(stage) && items == old(items)[id := items[id]]
    {
      hide StageItemReady;
      hide StageRowOf;
      stage := domain.nextId;
      domain := domain.(stages := domain.stages[stage := StageRowOf(w, items[id])], nextId := stage + 1);
      items := items[id := AdoptedItem(w, items[id], Some(stage))];
    }

    /** The insertion loop of `adopt_stage_items`. */
    method CreateStages(w: World, ids: seq<ItemId>) returns (created: map<string, ObjectId>)
      requires Distinct(ids) && LocalKeysUnique(items) && Allocated(domain)
      requires forall id | id in ids :: id in items && StageItemReady(w, items[id])
      modifies this`items, this`domain
      ensures StagesAdded(w, old(Rows()), Rows(), StageRowsOf(w, old(items), SetOf(ids))) && Allocated(domain)
      ensures Listed(old(items), items, SetOf(ids), created)
    {
      hide StageItemReady;
      hide StageRowOf;
      hide StageRowsOf;
      hide StagesAdded;
      hide Allocated;
      hide WithStage;
      hide Listed;
      created := map[];
      ghost var before := Rows();
      NoStagesAdded(w, before);
      NothingListed(items);
      assert SetOf(ids[..0]) == {};
      for n := 0 to |ids|
        invariant StagesAdded(w, before, Rows(), StageRowsOf(w, before.items, SetOf(ids[..n]))) && Allocated(domain)
        invariant Listed(before.items, items, SetOf(ids[..n]), created)
      {
        var id := ids[n];
        SetOfPrefix(ids, n);
        ghost var rows, mid := StageRowsOf(w, before.items, SetOf(ids[..n])), Rows();
        StageRowsStep(w, before.items, SetOf(ids[..n]), id);
        UntouchedByStages(w, before, mid, rows, id);
        StagesAddedStep(w, before, mid, rows, id, StageRowOf(w, items[id]));
        var key := items[id].localKey;
        var stage := CreateStage(w, id);
        ListedStep(before.items, mid.items, items, SetOf(ids[..n]), id, created, stage);
        created := created[key := stage];
      }
      assert ids[..|ids|] == ids;
    }

    /** `adopt_stage_items`: all stages of the batch, or none. */
    method AdoptStageItems(w: World, ids: seq<ItemId>) returns (ok: bool, conflict: bool, created: map<string, ObjectId>)
      requires Distinct(ids) && LocalKeysUnique(items) && Allocated(domain) && forall id | id in ids :: id in items
      modifies this`items, this`domain
      ensures ok <==> StagesReady(w, old(items), old(domain), SetOf(ids))
      ensures ok ==> StagesCreated(w, old(Rows()), Rows(), SetOf(ids)) && Allocated(domain)
      ensures ok ==> Listed(old(items), items, SetOf(ids), created)
      ensures !ok ==> Rows() == old(Rows())
      ensures conflict <==> StagesClash(old(items), old(domain), ids)
      ensures ok ==> !conflict
    {
      hide StageItemReady;
      hide StagesAdded;
      hide Listed;
      hide SequencesDistinct;
      hide Taken;
      created := map[];
      ok, conflict := PrepareStageForms(w, ids);
      if ok {
        assert forall id | id in ids :: id in SetOf(ids);
        created := CreateStages(w, ids);
      }
    }

    /** `adopt_process_item` */
    method AdoptProcessItem(w: World, id: ItemId) returns (r: Option<ProcessResult>)
      requires id in items
      modifies this`items, this`domain
      ensures r.Some? <==> ProcessReady(w, header, old(Rows()), id)
      ensures r.Some? ==>
                && Rows() == WithProcess(w, old(Rows()), id, ProcessRowOf(w, header, old(Rows()), id))
                && id in items && items == old(items)[id := items[id]] && items[id].created == Some(r.value.process)
                && ResolveStage(old(Rows()), old(items)[id]) == Some(r.value.stage)
      ensures r.None? ==> Rows() == old(Rows())
    {
      hide ProcessItemReady;
      hide ProcessValues;
      hide ResolveStage;
      var i := items[id];
      if !ProcessItemReady(w, header, i) {
        return None;
      }
      var stage := ResolveStage(State(batch, items, domain, audits), i);
      if stage.None? {
        return None;
      }
      var row := ProcessRowOf(w, header, State(batch, items, domain, audits), id);
      hide ProcessRowOf;
      var process := domain.nextId;
      domain := domain.(processes := domain.processes[process := row], nextId := process + 1);
      items := items[id := AdoptedItem(w, i, Some(process))];
      return Some(ProcessResult(process, stage.value));
    }

    /** The process loop of `_execute_value_stream_group`; the caller rolls back when it stops early. */
    method AdoptProcessItems(w: World, ids: seq<ItemId>) returns (ok: bool, results: map<string, ProcessResult>)
      requires Distinct(ids) && LocalKeysUnique(items) && Allocated(domain) && forall id | id in ids :: id in items
      modifies this`items, this`domain
      ensures ok <==> forall id | id in ids :: ProcessReady(w, header, old(Rows()), id)
      ensures ok ==> ProcessesAdded(w, old(Rows()), Rows(), ProcessRowsOf(w, header, old(Rows()), SetOf(ids))) && Allocated(domain)
      ensures ok ==> ProcessesListed(old(Rows()), items, SetOf(ids), results)
    {
      hide ProcessesAdded;
      hide ProcessRowsOf;
      hide ProcessRowOf;
      hide ProcessReady;
      hide ProcessesListed;
      hide Allocated;
      hide WithProcess;
      hide ResolveStage;
      results := map[];
      ghost var before := Rows();
      NoProcessesAdded(w, header, before);
      NoProcessesListed(before);
      assert SetOf(ids[..0]) == {};
      for n := 0 to |ids|
        invariant ProcessesAdded(w, before, Rows(), ProcessRowsOf(w, header, before, SetOf(ids[..n]))) && Allocated(domain)
        invariant ProcessesListed(before, items, SetOf(ids[..n]), results)
        invariant forall k | 0 <= k < n :: ProcessReady(w, header, before, ids[k])
      {
        var id := ids[n];
        SetOfPrefix(ids, n);
        ghost var done, mid := SetOf(ids[..n]), Rows();
        ProcessReadyIsStable(w, header, before, mid, done, id);
        var key := items[id].localKey;
        var r := AdoptProcessItem(w, id);
        if r.None? {
          return false, results;
        }
        ProcessStep(w, before, mid, done, id);
        ProcessesListedStep(before, mid.items, items, done, id, results, r.value);
        results := results[key := r.value];
      }
      assert ids[..|ids|] == ids;
      ok := true;
    }

    lemma ProcessStep(w: World, before: State, mid: State, done: set<ItemId>, id: ItemId)
      requires ProcessesAdded(w, before, mid, ProcessRowsOf(w, header, before, done)) && Allocated(mid.domain)
      requires id in before.items && id in mid.items && id !in done && ProcessReady(w, header, before, id)
      requires ProcessReady(w, header, mid, id) && ProcessRowOf(w, header, mid, id) == ProcessRowOf(w, header, before, id)
      ensures var t := WithProcess(w, mid, id, ProcessRowOf(w, header, mid, id));
              ProcessesAdded(w, before, t, ProcessRowsOf(w, header, before, done + {id})) && Allocated(t.domain)
    {
      hide ProcessRowOf;
      hide ProcessItemReady;
      hide ResolveStage;
      hide ProcessesAdded;
      hide WithProcess;
      ProcessRowsStep(w, header, before, done, id);
      hide ProcessRowsOf;
      ProcessesAddedStep(w, before, mid, ProcessRowsOf(w, header, before, done), id, ProcessRowOf(w, header, before, id));
    }

    // ---- metrics

    /** `_confirmed_items`: the confirmed item of each metric path. */
    method ConfirmedMetricItems(ids: seq<ItemId>) returns (ok: bool, confirmed: map<string, ItemId>)
      requires Distinct(ids) && forall id | id in ids :: id in items
      ensures ok <==> (forall id | id in ids :: MetricItemUsable(items[id])) && PathsUnique(items, SetOf(ids))
      ensures ok ==> ConfirmedBy(items, SetOf(ids), confirmed)
    {
      hide MetricItemUsable;
      confirmed := map[];
      for n := 0 to |ids|
        invariant forall k | 0 <= k < n :: MetricItemUsable(items[ids[k]])
        invariant forall k | 0 <= k < n :: items[ids[k]].targetPath in confirmed && confirmed[items[ids[k]].targetPath] == ids[k]
        invariant forall p | p in confirmed :: confirmed[p] in ids[..n] && items[confirmed[p]].targetPath == p
      {
        var i := items[ids[n]];
        if !MetricItemUsable(i) {
          return false, confirmed;
        }
        if i.targetPath in confirmed {
          assert ids[n] in SetOf(ids) && confirmed[i.targetPath] in SetOf(ids);
          assert ids[n] !in ids[..n];
          return false, confirmed;
        }
        confirmed := confirmed[i.targetPath := ids[n]];
      }
      return true, confirmed;
    }

    /** One metric field of the merge. */
    method MergeMetric(ghost ids: set<ItemId>, confirmed: map<string, ItemId>, path: string)
      returns (ok: bool, conflict: bool, value: Cell, source: Decision)
      requires ids <= items.Keys && PathsUnique(items, ids) && ConfirmedBy(items, ids, confirmed)
      ensures ok <==> PathFits(items, domain.metrics, confirmed, path)
      ensures conflict <==> path in confirmed && !MetricUnchanged(domain.metrics, items[confirmed[path]])
      ensures ok ==> value == EffectiveMetric(items, domain.metrics, ids, path) && source == MetricSource(items, ids, path)
    {
      hide EffectiveMetric;
      hide MetricSource;
      hide MetricValue;
      hide MetricUnchanged;
      hide PathsUnique;
      if path !in confirmed {
        UnconfirmedPath(items, domain.metrics, ids, confirmed, path);
        return true, false, Metric(domain.metrics, path), CurrentDatabase;
      }
      var i := items[confirmed[path]];
      var brought := MetricValue(i);
      if !MetricUnchanged(domain.metrics, i) || brought.None? {
        return false, !MetricUnchanged(domain.metrics, i), Nothing, CurrentDatabase;
      }
      ConfirmedPath(items, domain.metrics, ids, confirmed, path);
      return true, false, brought.value, i.decision;
    }

    /** The merge loop over the seven metric fields. */
    method MergeMetrics(ghost ids: set<ItemId>, confirmed: map<string, ItemId>)
      returns (ok: bool, conflict: bool, effective: Fields, sources: map<string, Decision>)
      requires ids <= items.Keys && PathsUnique(items, ids) && ConfirmedBy(items, ids, confirmed)
      requires forall id | id in ids :: MetricItemUsable(items[id])
      ensures ok <==> forall id | id in ids :: MetricFits(domain.metrics, items[id])
      ensures conflict <==> MetricsClash(items, domain, ids)
      ensures ok ==> !conflict
      ensures ok ==> MergedFrom(items, domain.metrics, ids, MetricPaths(), effective, sources)
    {
      hide MetricPaths;
      hide ConfirmedBy;
      hide PathFits;
      hide MetricsClash;
      hide EffectiveMetric;
      hide MetricSource;
      hide MetricFits;
      hide MetricItemUsable;
      hide PathsUnique;
      hide MergedFrom;
      var paths := MetricPaths();
      UsableClash(items, domain, ids);
      hide ClashesAt;
      PathsFit(items, domain.metrics, ids, confirmed);
      effective, sources, conflict := map[], map[], false;
      NothingMerged(items, domain.metrics, ids);
      assert paths[..0] == [];
      for n := 0 to |paths|
        invariant forall k | 0 <= k < n :: PathFits(items, domain.metrics, confirmed, paths[k])
        invariant MergedFrom(items, domain.metrics, ids, paths[..n], effective, sources)
      {
        var value, source;
        ok, conflict, value, source := MergeMetric(ids, confirmed, paths[n]);
        if !ok {
          MergeClashes(items, domain.metrics, ids, confirmed, n);
          return;
        }
        MergedStep(items, domain.metrics, ids, paths[..n], effective, sources, paths[n]);
        assert paths[..n + 1] == paths[..n] + [paths[n]];
        effective := effective[paths[n] := value];
        sources := sources[paths[n] := source];
      }
      assert paths[..|paths|] == paths;
      NoMergeClash(items, domain.metrics, ids);
      ok, conflict := true, false;
    }

    /** `adopt_metric_items`: check the whole form, then save the changed metric fields. */
    method AdoptMetricItems(w: World, ids: seq<ItemId>) returns (ok: bool, conflict: bool, sources: map<string, Decision>)
      requires Distinct(ids) && forall id | id in ids :: id in items
      modifies this`domain
      ensures ok <==> MetricsReady(w, items, old(domain), SetOf(ids))
      ensures ok ==> domain == old(domain).(metrics := SaveMetrics(old(domain).metrics,
                                w.metricForm(EffectiveMetrics(items, old(domain).metrics, SetOf(ids))).value))
      ensures ok ==> sources == map p | p in MetricPaths() :: MetricSource(items, SetOf(ids), p)
      ensures !ok ==> domain == old(domain)
      ensures conflict <==> MetricsClash(items, old(domain), SetOf(ids))
    {
      hide EffectiveMetrics;
      hide MetricSource;
      hide SaveMetrics;
      hide MetricFits;
      hide MetricsClash;
      hide ClashesAt;
      var usable, confirmed := ConfirmedMetricItems(ids);
      assert forall id :: id in ids <==> id in SetOf(ids);
      hide SetOf;
      assert forall id | id in ids :: MetricItemReady(domain.metrics, items[id]) <==>
            MetricItemUsable(items[id]) && MetricFits(domain.metrics, items[id]);
      hide MetricItemReady;
      hide MetricItemUsable;
      if !usable {
        UnusableDoesNotClash(items, domain, SetOf(ids));
        return false, false, map[];
      }
      var merged, clash, effective, from := MergeMetrics(SetOf(ids), confirmed);
      hide PathsUnique;
      if !merged {
        return false, clash, from;
      }
      MergedIs(items, domain.metrics, SetOf(ids), effective, from);
      var cleaned := w.metricForm(effective);
      if cleaned.None? {
        return false, false, from;
      }
      domain := domain.(metrics := SaveMetrics(domain.metrics, cleaned.value));
      return true, false, from;
    }

    /** `_mark_metric_items_adopted` */
    method MarkMetricItemsAdopted(w: World, ids: seq<ItemId>)
      requires forall id | id in ids :: id in items
      requires Distinct(ids)
      modifies this`items
      ensures MetricItemsMarked(w, old(items), items, SetOf(ids))
    {
      hide AdoptedItem;
      ghost var before := items;
      for n := 0 to |ids|
        invariant MetricItemsMarked(w, before, items, SetOf(ids[..n]))
      {
        var id := ids[n];
        SetOfPrefix(ids, n);
        assert items[id] == before[id];
        items := items[id := AdoptedItem(w, items[id], items[id].created)];
      }
      assert ids[..|ids|] == ids;
    }

    /** `_execute_use_case_group`; on an error the surrounding transaction rolls back. */
    method ExecuteUseCaseGroup(w: World) returns (e: Option<CommitError>, result: ResultSnapshot)
      requires Valid() && header.targetType == UseCase
      modifies this`items, this`domain
      ensures e.None? <==> DomainAccepts(w, header, old(items), old(domain))
      ensures e.None? ==> GroupExecuted(w, header, old(Rows()), old(Rows()), Rows()) && Valid()
      ensures e.None? ==> ResultFits(header, old(Rows()), old(Rows()), Rows(), result)
      ensures e.Some? ==> e.value == if DomainClash(header, order, old(items), old(domain)) then DomainConflict else DomainInvalid
    {
      hide DomainAccepts;
      hide DomainClash;
      hide GroupExecuted;
      hide ResultFits;
      hide MetricsReady;
      hide MetricsClash;
      hide SaveMetrics;
      hide EffectiveMetrics;
      hide MetricPaths;
      hide MetricSource;
      hide Metric;
      hide ChangedMetrics;
      hide SelectedInOrder;
      hide SelectedItems;
      hide SetOf;
      hide Distinct;
      hide KindsAllowed;
      hide MetricItemsMarked;
      var ids := SelectedInOrder(order, items, MetricSet);
      SelectionIsSet(order, items, MetricSet);
      MetricSelection(w, header, order, items, domain, ids);
      ghost var before := Rows();
      var savedMetrics := domain.metrics;
      result := NoResult;
      var allowed := CheckKinds({MetricSet});
      if !allowed || ids == [] {
        return Some(DomainInvalid), result;
      }
      var ok, conflict, sources := AdoptMetricItems(w, ids);
      if !ok {
        return Some(if conflict then DomainConflict else DomainInvalid), result;
      }
      MarkMetricItemsAdopted(w, ids);
      var effective := map p | p in MetricPaths() :: Metric(domain.metrics, p);
      result := MetricResult(batch.attempts, effective, sources, ChangedMetrics(savedMetrics, domain.metrics));
      MetricGroupExecuted(w, header, order, before, Rows(), ids, result);
      e := None;
    }

    /** No selected item is of another kind than the batch's target allows. */
    method CheckKinds(kinds: set<Kind>) returns (allowed: bool)
      requires IsOrder(order, items)
      ensures allowed <==> KindsAllowed(items, kinds)
    {
      for n := 0 to |order|
        invariant forall k | 0 <= k < n :: order[k] in items && (items[order[k]].decision != Rejected ==> items[order[k]].kind in kinds)
      {
        assert order[n] in order;
        if items[order[n]].decision != Rejected && items[order[n]].kind !in kinds {
          return false;
        }
      }
      return true;
    }

    /** `_execute_value_stream_group`; on an error the surrounding transaction rolls back. */
    method ExecuteValueStreamGroup(w: World) returns (e: Option<CommitError>, result: ResultSnapshot, ghost mid: State)
      requires Valid() && GraphAccepted(order, Rows()) && header.targetType == ValueStream
      modifies this`items, this`domain
      ensures e.None? <==> DomainAccepts(w, header, old(items), old(domain))
      ensures e.None? ==> GroupExecuted(w, header, old(Rows()), mid, Rows()) && Valid()
      ensures e.None? ==> ResultFits(header, old(Rows()), mid, Rows(), result)
      ensures e.Some? ==> e.value == if DomainClash(header, order, old(items), old(domain)) then DomainConflict else DomainInvalid
    {
      hide DomainAccepts;
      hide DomainClash;
      hide GroupExecuted;
      hide ResultFits;
      hide GraphAccepted;
      hide StagesReady;
      hide StagesClash;
      hide StagesCreated;
      hide ProcessesAdded;
      hide Listed;
      hide ProcessesListed;
      hide ProcessRowsOf;
      hide ProcessReady;
      hide SelectedInOrder;
      hide SelectedItems;
      hide SetOf;
      hide Distinct;
      hide KindsAllowed;
      hide ReferenceWithin;
      hide Allocated;
      ghost var before := Rows();
      result, mid := NoResult, before;
      var stageIds, processIds := SelectedInOrder(order, items, ValueStreamStage), SelectedInOrder(order, items, ProcessAnalysis);
      SelectionIsSet(order, items, ValueStreamStage);
      SelectionIsSet(order, items, ProcessAnalysis);
      StreamSelection(w, header, items, domain, stageIds, processIds);
      StreamClash(header, order, items, domain);
      var allowed := CheckKinds({ValueStreamStage, ProcessAnalysis});
      if !allowed || (stageIds == [] && processIds == []) {
        return Some(DomainInvalid), result, mid;
      }
      var ok, conflict, stages := AdoptStageItems(w, stageIds);
      if !ok {
        return Some(if conflict then DomainConflict else DomainInvalid), result, mid;
      }
      mid := Rows();
      ProcessesAfterStages(w, header, order, before, mid, SetOf(stageIds), processIds);
      hide Constraints;
      var adopted, processes := AdoptProcessItems(w, processIds);
      if !adopted {
        return Some(DomainInvalid), result, mid;
      }
      result := StreamResult(batch.attempts, stages, processes);
      StreamGroupExecuted(w, header, before, mid, Rows(), stageIds, processIds, result);
      ProcessesKeepConstraints(w, order, mid, Rows(), ProcessRowsOf(w, header, mid, SetOf(processIds)));
      e := None;
    }

    /** `_execute_reserved_batch`: everything, or nothing and an error. */
    method ExecuteReservedBatch(w: World, actor: Actor, key: IdempotencyKey) returns (e: Option<CommitError>)
      requires Valid()
      modifies this
      ensures Valid()
      ensures e.None? <==> CanExecute(w, header, order, old(Rows()), actor, key)
      ensures e.None? ==> Executed(w, header, old(Rows()), actor, Rows())
      ensures e.Some? ==> Rows() == old(Rows()) && Reports(w, header, order, old(Rows()), actor, key, e.value)
    {
      hide GraphAccepted;
      hide KeyHolds;
      hide DomainAccepts;
      hide DomainClash;
      hide GroupExecuted;
      hide ResultFits;
      hide Constraints;
      ghost var before := Rows();
      assert IsOrder(order, items) by { ConstraintsOrder(order, items, domain); }
      e := CheckReservedBatch(w, actor, key);
      if e.Some? {
        return;
      }
      var savedItems, savedDomain := items, domain;
      var result;
      ghost var mid := before;
      if header.targetType == UseCase {
        e, result := ExecuteUseCaseGroup(w);
      } else {
        e, result, mid := ExecuteValueStreamGroup(w);
      }
      if e.Some? {
        items, domain := savedItems, savedDomain;
        return;
      }
      assert before.batch == batch && before.audits == audits;
      audits := audits + [Audit(CommittedEvent, actor, None, batch.key, batch.attempts)];
      batch := CommittedBatch(w, batch, result);
      assert ExecutedVia(w, header, before, actor, mid, Rows());
    }

    /** The checks of `_execute_reserved_batch` before it touches the domain. */
    method CheckReservedBatch(w: World, actor: Actor, key: IdempotencyKey) returns (e: Option<CommitError>)
      requires IsOrder(order, items)
      ensures e == FirstRefusal(w, header, order, Rows(), actor, key)
    {
      if !KeyHolds(header, batch, key) {
        return Some(KeyMismatch);
      }
      if batch.status != Processing || batch.processingBy != Some(actor) {
        return Some(ReservationLost);
      }
      if !w.targetExists {
        return Some(TargetMissing);
      }
      if !w.canEdit(actor) {
        return Some(PermissionDenied);
      }
      if !w.sessionCurrent {
        return Some(if w.captureVanished then Unexpected else SessionStale);
      }
      if !w.analysisCurrent {
        return Some(if w.captureVanished then Unexpected else AnalysisStale);
      }
      var accepted := AssertItemGraph();
      return if accepted then None else Some(GraphRefused);
    }

    /** `commit_structured_batch`: preflight, reserve, execute, and on an error record it. */
    method CommitStructuredBatch(pre: World, exec: World, post: World, actor: Actor, key: IdempotencyKey)
      returns (o: CommitOutcome)
      requires Valid()
      modifies this
      ensures Valid()
      ensures Commits(pre, exec, post, header, order, old(Rows()), actor, key, o, Rows())
    {
      hide Executed;
      hide CanExecute;
      hide Reports;
      hide Constraints;
      hide KeyHolds;
      assert IsOrder(order, items) by { ConstraintsOrder(order, items, domain); }
      if !Preflight(pre, header, batch, actor, key) {
        return RefusedBeforeReservation;
      }
      var reservation := ReserveBatch(actor, key);
      match reservation
      case Refused =>
        o := RefusedBeforeReservation;
      case Replay(attempt, result) =>
        o := Replayed(attempt, result);
      case Reserved(attempt) =>
        var e := ExecuteReservedBatch(exec, actor, key);
        if e.None? {
          return Done(attempt, batch.result);
        }
        RecordFailure(post, actor, e.value);
        o := FailedWith(e.value);
    }

    /** `commit_review_batch`: a commit under the stored key, for a batch that is ready. */
    method CommitReviewBatch(pre: World, exec: World, post: World, actor: Actor) returns (o: CommitOutcome)
      requires Valid()
      modifies this
      ensures Valid()
      ensures if MayEdit(pre, header, old(batch), actor) && Ready(old(Rows()))
              then Commits(pre, exec, post, header, order, old(Rows()), actor, old(batch.key), o, Rows())
              else o == RefusedBeforeReservation && Rows() == old(Rows())
    {
      hide Ready;
      hide Commits;
      hide Constraints;
      assert IsOrder(order, items) by { ConstraintsOrder(order, items, domain); }
      if !MayEdit(pre, header, batch, actor) {
        return RefusedBeforeReservation;
      }
      var ready := ReviewBatchReady();
      if !ready {
        return RefusedBeforeReservation;
      }
      o := CommitStructuredBatch(pre, exec, post, actor, batch.key);
    }
  }
}
