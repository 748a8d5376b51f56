/** When a refused execution is a conflict: told from what was decided and from what stands in the domain now. */
module StructuredConflicts {
  import opened Options
  import opened StructuredModel
  import opened StructuredReview
  import opened StructuredExecution
  import opened StructuredSteps
  import opened StructuredReviewProofs
  import opened StructuredOutcome
  import opened StructuredValues

  /** Somebody changed the field after the review read it. */
  predicate Overtaken(items: Items, d: Domain, id: ItemId) {
    id in items && Confirmable(items[id], MetricSet)
    && items[id].fieldHash != Some(if items[id].targetPath in d.metrics then d.metrics[items[id].targetPath] else Nothing)
  }

  /** Somebody created a stage at the place the item stands for. */
  ghost predicate Displaced(items: Items, d: Domain, id: ItemId) {
    id in items && Confirmable(items[id], ValueStreamStage)
    && exists v: Fields, o :: StandsForFields(items[id], v) && "sequence" in v && o in d.stages && v["sequence"] == Number(d.stages[o].sequence)
  }

  lemma MetricUsable(h: Header, order: seq<ItemId>, s: State, id: ItemId)
    requires ReviewSound(h, order, s) && Ready(s) && h.targetType == UseCase && id in s.items
    ensures s.items[id].kind == MetricSet
    ensures id in SelectedItems(s.items, MetricSet) <==> Confirmable(s.items[id], MetricSet)
    ensures Confirmable(s.items[id], MetricSet) ==> MetricItemUsable(s.items[id]) && MetricValue(s.items[id]).Some?
  {
    DependencyIsStage(h, s.items, id);
    KindSuits(h, s.items[id]);
    ReadySelection(h, order, s, id);
    assert ItemReady(s.items, s.items[id]);
    hide ReviewSound;
    hide DependencyFits;
    hide SelectedItems;
    hide MetricPaths;
    hide MetricKey;
  }

  lemma MetricClashIs(h: Header, order: seq<ItemId>, items: Items, d: Domain, ids: set<ItemId>)
    requires h.targetType == UseCase && ids == SelectedItems(items, MetricSet) && ids <= items.Keys
    requires KindsAllowed(items, {MetricSet}) && PathsUnique(items, ids)
    requires forall id | id in ids :: MetricItemUsable(items[id]) && MetricValue(items[id]).Some?
    ensures DomainClash(h, order, items, d) <==> exists id :: id in ids && !MetricUnchanged(d.metrics, items[id])
  {
    hide KindsAllowed;
    hide PathsUnique;
    hide MetricItemUsable;
    hide MetricValue;
    hide MetricUnchanged;
    hide SelectedItems;
    UsableClash(items, d, ids);
    hide MetricsClash;
    FirstClash(items, d.metrics, ids);
    hide ClashesAt;
  }

  lemma OvertakenIff(h: Header, order: seq<ItemId>, s: State, id: ItemId)
    requires ReviewSound(h, order, s) && Ready(s) && h.targetType == UseCase
    ensures id in SelectedItems(s.items, MetricSet) && id in s.items && !MetricUnchanged(s.domain.metrics, s.items[id])
            <==> Overtaken(s.items, s.domain, id)
  {
    hide *;
    SelectedKnown(s.items, MetricSet);
    if id in s.items {
      MetricUsable(h, order, s, id);
    }
    OvertakenIs(s.items, s.domain, id);
  }

  lemma OvertakenIs(items: Items, d: Domain, id: ItemId)
    ensures Overtaken(items, d, id) <==> id in items && Confirmable(items[id], MetricSet) && !MetricUnchanged(d.metrics, items[id])
  {
  }

  /** A ready batch of metrics meets a conflict exactly if a field it was to write was changed meanwhile. */
  lemma MetricConflictIff(h: Header, order: seq<ItemId>, s: State)
    requires ReviewSound(h, order, s) && Ready(s) && h.targetType == UseCase
    ensures DomainClash(h, order, s.items, s.domain) <==> exists id :: Overtaken(s.items, s.domain, id)
  {
    var ids := SelectedItems(s.items, MetricSet);
    SelectedKnown(s.items, MetricSet);
    assert ItemsSound(h, s.items);
    hide *;
    MetricPathsUnique(h, s.items, ids);
    forall id | id in s.items
      ensures s.items[id].kind == MetricSet
      ensures id in ids ==> MetricItemUsable(s.items[id]) && MetricValue(s.items[id]).Some?
    {
      MetricUsable(h, order, s, id);
      if id in ids {
        ConfirmableOf(s.items[id]);
      }
    }
    OnlyMetrics(s.items);
    MetricClashIs(h, order, s.items, s.domain, ids);
    forall id ensures id in ids && !MetricUnchanged(s.domain.metrics, s.items[id]) <==> Overtaken(s.items, s.domain, id) {
      OvertakenIff(h, order, s, id);
    }
  }

  lemma ConfirmableOf(i: Item)
    ensures Confirmable(i, MetricSet) <==> i.kind == MetricSet && i.decision != Rejected
  {
  }

  /** The paths that do not fit have a first one. */
  lemma FirstClash(items: Items, metrics: Fields, ids: set<ItemId>)
    requires ids <= items.Keys && forall id | id in ids :: MetricItemUsable(items[id]) && MetricValue(items[id]).Some?
    ensures (exists n :: ClashesAt(items, metrics, ids, n)) <==> exists id :: id in ids && !MetricUnchanged(metrics, items[id])
  {
    hide MetricUnchanged;
    hide MetricValue;
    assert forall id | id in ids :: items[id].targetPath in MetricPaths();
    hide MetricPaths;
    hide MetricItemUsable;
    if exists id :: id in ids && !MetricUnchanged(metrics, items[id]) {
      var id :| id in ids && !MetricUnchanged(metrics, items[id]);
      var m :| 0 <= m < |MetricPaths()| && MetricPaths()[m] == items[id].targetPath;
      var n := LeastClash(items, metrics, ids, m);
    }
  }

  lemma {:induction false} LeastClash(items: Items, metrics: Fields, ids: set<ItemId>, m: nat) returns (n: nat)
    requires ids <= items.Keys && m < |MetricPaths()| && forall id | id in ids :: MetricValue(items[id]).Some?
    requires exists id | id in ids :: items[id].targetPath == MetricPaths()[m] && !MetricUnchanged(metrics, items[id])
    ensures ClashesAt(items, metrics, ids, n)
  {
    hide MetricUnchanged;
    hide MetricValue;
    hide MetricPaths;
    n := m;
    if exists id, k | id in ids && 0 <= k < m && items[id].targetPath == MetricPaths()[k] :: !MetricUnchanged(metrics, items[id]) {
      var id, k :| id in ids && 0 <= k < m && items[id].targetPath == MetricPaths()[k] && !MetricUnchanged(metrics, items[id]);
      n := LeastClash(items, metrics, ids, k);
    }
  }

  lemma StageUsable(h: Header, order: seq<ItemId>, s: State, id: ItemId)
    requires ReviewSound(h, order, s) && Ready(s) && h.targetType == ValueStream && id in s.items
    requires s.items[id].kind == ValueStreamStage && s.items[id].decision != Rejected && ValidStageValues(FieldsOf(s.items[id]))
    ensures StageValuesReady(s.items[id]) && StandsForFields(s.items[id], FieldsOf(s.items[id]))
    ensures FieldsOf(s.items[id])["sequence"] == Number(SequenceOf(s.items[id]))
  {
    ReadyStands(h, order, s, id);
    SequenceIs(s.items[id]);
    DependencyIsStage(h, s.items, id);
    assert ItemReady(s.items, s.items[id]);
    hide ReviewSound;
    hide DependencyFits;
    hide SelectedItems;
    hide ValidStageValues;
    hide SequenceOf;
  }

  lemma StageInOrder(h: Header, order: seq<ItemId>, s: State, id: ItemId)
    requires ReviewSound(h, order, s) && Ready(s) && h.targetType == ValueStream
    requires id in s.items && Confirmable(s.items[id], ValueStreamStage) ==> ValidStageValues(FieldsOf(s.items[id]))
    ensures var ids := SelectedInOrder(order, s.items, ValueStreamStage);
            && (id in ids <==> id in s.items && Confirmable(s.items[id], ValueStreamStage))
            && (id in ids ==> StageValuesReady(s.items[id])
                              && (Taken(s.domain.stages, SequenceOf(s.items[id])) <==> Displaced(s.items, s.domain, id)))
  {
    assert IsOrder(order, s.items);
    SelectionIsSet(order, s.items, ValueStreamStage);
    var ids := SelectedInOrder(order, s.items, ValueStreamStage);
    assert id in ids <==> id in SetOf(ids);
    SequenceAt(h, order, s, id);
    if id in ids {
      ConfirmableStage(s.items[id]);
      StageUsable(h, order, s, id);
      hide *;
      DisplacedIff(s.items, s.domain, id);
    }
    hide ReviewSound;
    hide Ready;
    hide SelectedItems;
    hide SelectedInOrder;
    hide Confirmable;
    hide Displaced;
  }

  lemma ConfirmableStage(i: Item)
    ensures Confirmable(i, ValueStreamStage) <==> i.kind == ValueStreamStage && i.decision != Rejected
  {
  }

  /** The stage item stands for fields the execution can make a stage of. */
  ghost predicate Complete(i: Item) {
    exists v: Fields, payload: Fields :: StandsForFields(i, v) && v.Keys <= payload.Keys && StagePayload(v, payload)
  }

  lemma CompleteIsValid(h: Header, order: seq<ItemId>, s: State, id: ItemId)
    requires ReviewSound(h, order, s) && Ready(s) && id in s.items && Confirmable(s.items[id], ValueStreamStage) && Complete(s.items[id])
    ensures ValidStageValues(FieldsOf(s.items[id]))
  {
    ConfirmableStage(s.items[id]);
    ReadyStands(h, order, s, id);
    var i := s.items[id];
    var v: Fields, payload: Fields :| StandsForFields(i, v) && v.Keys <= payload.Keys && StagePayload(v, payload);
    hide *;
    StandsAlone(i, v, FieldsOf(i));
    StagePayloadIff(v);
  }

  lemma ValidStagesClash(h: Header, order: seq<ItemId>, s: State)
    requires ReviewSound(h, order, s) && Ready(s) && h.targetType == ValueStream
    requires forall id | id in s.items && Confirmable(s.items[id], ValueStreamStage) :: ValidStageValues(FieldsOf(s.items[id]))
    ensures IsOrder(order, s.items)
    ensures var ids := SelectedInOrder(order, s.items, ValueStreamStage);
            && (forall id | id in ids :: StageValuesReady(s.items[id]))
            && (SequencesApart(s.items) <==> SequencesDistinct(s.items, SetOf(ids)))
            && forall id :: Displaced(s.items, s.domain, id) <==> id in ids && Taken(s.domain.stages, SequenceOf(s.items[id]))
  {
    assert IsOrder(order, s.items);
    hide *;
    hide SelectedInOrder;
    SequencesWelcome(h, order, s);
    SelectionIsSet(order, s.items, ValueStreamStage);
    var ids := SelectedInOrder(order, s.items, ValueStreamStage);
    forall id
      ensures id in ids ==> StageValuesReady(s.items[id])
      ensures Displaced(s.items, s.domain, id) <==> id in ids && Taken(s.domain.stages, SequenceOf(s.items[id]))
    {
      StageInOrder(h, order, s, id);
      if Displaced(s.items, s.domain, id) {
        DisplacedIsStage(s.items, s.domain, id);
      }
    }
  }

  /**
   * A ready batch of a value stream whose stages have all they need meets a conflict exactly if two of them
   * want the same place, or somebody created a stage at the place of one.
   */
  lemma StageConflictIff(h: Header, order: seq<ItemId>, s: State)
    requires ReviewSound(h, order, s) && Ready(s) && h.targetType == ValueStream
    requires forall id | id in s.items && Confirmable(s.items[id], ValueStreamStage) :: Complete(s.items[id])
    ensures DomainClash(h, order, s.items, s.domain) <==>
              !SequencesApart(s.items) || exists id :: Displaced(s.items, s.domain, id)
  {
    hide *;
    hide SelectedInOrder;
    forall id | id in s.items && Confirmable(s.items[id], ValueStreamStage) ensures ValidStageValues(FieldsOf(s.items[id])) {
      CompleteIsValid(h, order, s, id);
    }
    ValidStagesClash(h, order, s);
    ReadyStreamKinds(h, order, s);
    SelectionIsSet(order, s.items, ValueStreamStage);
    var ids := SelectedInOrder(order, s.items, ValueStreamStage);
    RepeatsIff(s.items, ids);
    StreamClash(h, order, s.items, s.domain);
    StagesClashIs(s.items, s.domain, ids);
  }

  /** In the order of their keys, stage item `n` and all before it are complete, and it stands for the place of one of them. */
  ghost predicate RepeatsPlace(items: Items, ids: seq<ItemId>, n: nat)
    requires forall id | id in ids :: id in items
  {
    && n < |ids| && (forall k | 0 <= k <= n :: Complete(items[ids[k]]))
    && exists k | 0 <= k < n :: SamePlace(items[ids[k]], items[ids[n]])
  }

  ghost predicate SamePlace(i: Item, j: Item) {
    exists u: Fields, v: Fields :: StandsForFields(i, u) && StandsForFields(j, v)
      && "sequence" in u && "sequence" in v && u["sequence"] == v["sequence"]
  }

  lemma ReadyIffComplete(h: Header, order: seq<ItemId>, s: State, id: ItemId)
    requires ReviewSound(h, order, s) && Ready(s) && h.targetType == ValueStream && id in s.items
    requires Confirmable(s.items[id], ValueStreamStage)
    ensures StageValuesReady(s.items[id]) <==> Complete(s.items[id])
    ensures Complete(s.items[id]) ==> StandsForFields(s.items[id], FieldsOf(s.items[id])) && "sequence" in FieldsOf(s.items[id])
                                      && FieldsOf(s.items[id])["sequence"] == Number(SequenceOf(s.items[id]))
  {
    ConfirmableStage(s.items[id]);
    ReadyStands(h, order, s, id);
    if Complete(s.items[id]) {
      CompleteIsValid(h, order, s, id);
      StageUsable(h, order, s, id);
      SequenceIs(s.items[id]);
    }
    hide ReviewSound;
    hide Ready;
    if StageValuesReady(s.items[id]) {
      ReadyIsComplete(s.items[id]);
    }
  }

  lemma ReadyIsComplete(i: Item)
    requires StageValuesReady(i) && StandsForFields(i, FieldsOf(i))
    ensures Complete(i)
  {
    ConfirmedFieldsAre(i, FieldsOf(i));
    var v := FieldsOf(i);
    StagePayloadIff(v);
    hide StagePayload;
    hide ValidStageValues;
    hide StageValues;
    hide StandsForFields;
    hide ValidLocalKey;
    hide ConfirmedFields;
    hide FieldsOf;
  }

  lemma SamePlaceIff(i: Item, j: Item)
    requires StandsForFields(i, FieldsOf(i)) && "sequence" in FieldsOf(i) && FieldsOf(i)["sequence"] == Number(SequenceOf(i))
    requires StandsForFields(j, FieldsOf(j)) && "sequence" in FieldsOf(j) && FieldsOf(j)["sequence"] == Number(SequenceOf(j))
    ensures SamePlace(i, j) <==> SequenceOf(i) == SequenceOf(j)
  {
    forall u | StandsForFields(i, u) ensures u == FieldsOf(i) {
      StandsAlone(i, u, FieldsOf(i));
    }
    forall u | StandsForFields(j, u) ensures u == FieldsOf(j) {
      StandsAlone(j, u, FieldsOf(j));
    }
    hide StandsForFields;
    hide FieldsOf;
    hide SequenceOf;
  }

  lemma RepeatsMeans(h: Header, order: seq<ItemId>, s: State, ids: seq<ItemId>, n: nat)
    requires ReviewSound(h, order, s) && Ready(s) && h.targetType == ValueStream
    requires forall id | id in ids :: id in s.items && Confirmable(s.items[id], ValueStreamStage)
    ensures RepeatsAt(s.items, ids, n) <==> RepeatsPlace(s.items, ids, n)
  {
    hide ReviewSound;
    hide Ready;
    hide Confirmable;
    forall k | 0 <= k < |ids|
      ensures StageValuesReady(s.items[ids[k]]) <==> Complete(s.items[ids[k]])
      ensures n < |ids| && Complete(s.items[ids[k]]) && Complete(s.items[ids[n]]) ==>
                (SamePlace(s.items[ids[k]], s.items[ids[n]]) <==> SequenceOf(s.items[ids[k]]) == SequenceOf(s.items[ids[n]]))
    {
      ReadyIffComplete(h, order, s, ids[k]);
      if n < |ids| && Complete(s.items[ids[k]]) && Complete(s.items[ids[n]]) {
        ReadyIffComplete(h, order, s, ids[n]);
        hide *;
        SamePlaceIff(s.items[ids[k]], s.items[ids[n]]);
      }
    }
    hide StageValuesReady;
    hide Complete;
    hide SamePlace;
    hide SequenceOf;
  }

  lemma SelectedStagesAre(h: Header, order: seq<ItemId>, s: State, id: ItemId)
    requires ReviewSound(h, order, s) && Ready(s)
    ensures id in SelectedInOrder(order, s.items, ValueStreamStage) <==> id in s.items && Confirmable(s.items[id], ValueStreamStage)
  {
    assert IsOrder(order, s.items);
    SelectionIsSet(order, s.items, ValueStreamStage);
    var ids := SelectedInOrder(order, s.items, ValueStreamStage);
    assert id in ids <==> id in SetOf(ids);
    SelectedKnown(s.items, ValueStreamStage);
    if id in s.items {
      SelectedIs(s.items, id);
      ReadySelection(h, order, s, id);
      ConfirmableStage(s.items[id]);
    }
    hide ReviewSound;
    hide Ready;
    hide SelectedItems;
    hide SelectedInOrder;
    hide Confirmable;
  }

  /**
   * With stages that lack something it depends on what is found first: the batch meets a conflict exactly if, in the
   * order of the keys, two stages want one place before one is found incomplete, or all are complete and somebody
   * created a stage at the place of one.
   */
  lemma StageConflictInOrder(h: Header, order: seq<ItemId>, s: State)
    requires ReviewSound(h, order, s) && Ready(s) && h.targetType == ValueStream
    ensures var ids := SelectedInOrder(order, s.items, ValueStreamStage);
            && (forall id :: id in ids <==> id in s.items && Confirmable(s.items[id], ValueStreamStage))
            && (DomainClash(h, order, s.items, s.domain) <==>
                  || (exists n :: RepeatsPlace(s.items, ids, n))
                  || ((forall id | id in ids :: Complete(s.items[id])) && exists id :: Displaced(s.items, s.domain, id)))
  {
    hide *;
    hide SelectedInOrder;
    var ids := SelectedInOrder(order, s.items, ValueStreamStage);
    forall id ensures id in ids <==> id in s.items && Confirmable(s.items[id], ValueStreamStage) {
      SelectedStagesAre(h, order, s, id);
    }
    ReadyStreamKinds(h, order, s);
    StreamClash(h, order, s.items, s.domain);
    forall n: nat ensures RepeatsAt(s.items, ids, n) <==> RepeatsPlace(s.items, ids, n) {
      RepeatsMeans(h, order, s, ids, n);
    }
    forall id | id in ids ensures StageValuesReady(s.items[id]) <==> Complete(s.items[id]) {
      ReadyIffComplete(h, order, s, id);
    }
    forall id | id in ids && Complete(s.items[id])
      ensures Taken(s.domain.stages, SequenceOf(s.items[id])) <==> Displaced(s.items, s.domain, id)
    {
      ReadyIffComplete(h, order, s, id);
      DisplacedIff(s.items, s.domain, id);
    }
    forall id | Displaced(s.items, s.domain, id) ensures id in ids {
      DisplacedIsStage(s.items, s.domain, id);
    }
    ClashIs(s.items, s.domain, ids);
  }

  lemma ClashIs(items: Items, d: Domain, ids: seq<ItemId>)
    requires forall id | id in ids :: id in items
    ensures StagesClash(items, d, ids) <==>
              || (exists n :: RepeatsAt(items, ids, n))
              || ((forall id | id in ids :: StageValuesReady(items[id])) && exists id | id in ids :: Taken(d.stages, SequenceOf(items[id])))
  {
    hide RepeatsAt;
    hide StageValuesReady;
    hide Taken;
    hide SequenceOf;
  }

  lemma DisplacedIsStage(items: Items, d: Domain, id: ItemId)
    requires Displaced(items, d, id)
    ensures id in items && Confirmable(items[id], ValueStreamStage)
  {
  }

  lemma StagesClashIs(items: Items, d: Domain, ids: seq<ItemId>)
    requires forall id | id in ids :: id in items && StageValuesReady(items[id])
    ensures StagesClash(items, d, ids) <==>
              (exists n :: RepeatsAt(items, ids, n)) || exists id | id in ids :: Taken(d.stages, SequenceOf(items[id]))
  {
    hide RepeatsAt;
    hide StageValuesReady;
    hide Taken;
    hide SequenceOf;
  }

  lemma DisplacedIff(items: Items, d: Domain, id: ItemId)
    requires id in items && Confirmable(items[id], ValueStreamStage)
    requires StandsForFields(items[id], FieldsOf(items[id])) && "sequence" in FieldsOf(items[id])
    requires FieldsOf(items[id])["sequence"] == Number(SequenceOf(items[id]))
    ensures Taken(d.stages, SequenceOf(items[id])) <==> Displaced(items, d, id)
  {
    var v := FieldsOf(items[id]);
    forall u | StandsForFields(items[id], u) ensures u == v {
      StandsAlone(items[id], u, v);
    }
    hide StandsForFields;
    hide FieldsOf;
    hide SequenceOf;
  }
}
