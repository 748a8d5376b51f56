/** The bookkeeping behind the adoption loops: one more item, one more row. */
module StructuredSteps {
  import opened Options
  import opened StructuredModel
  import opened StructuredReview
  import opened StructuredExecution

  ghost predicate Distinct(ids: seq<ItemId>) {
    forall i, j | 0 <= i < j < |ids| :: ids[i] != ids[j]
  }

  ghost function SetOf(ids: seq<ItemId>): set<ItemId> {
    set id | id in ids
  }

  lemma {:induction false} SelectionInOrder(order: seq<ItemId>, items: Items, kind: Kind)
    requires Distinct(order)
    ensures Distinct(SelectedInOrder(order, items, kind))
    ensures forall id :: id in SelectedInOrder(order, items, kind) <==> id in order && id in SelectedItems(items, kind)
  {
    if order != [] {
      var front, last := order[..|order| - 1], order[|order| - 1];
      SelectionInOrder(front, items, kind);
      assert order == front + [last];
      assert last !in front;
    }
  }

  lemma SelectionIsSet(order: seq<ItemId>, items: Items, kind: Kind)
    requires IsOrder(order, items)
    ensures Distinct(SelectedInOrder(order, items, kind))
    ensures SetOf(SelectedInOrder(order, items, kind)) == SelectedItems(items, kind)
  {
    SelectionInOrder(order, items, kind);
  }

  lemma SetOfPrefix(ids: seq<ItemId>, i: nat)
    requires i < |ids| && Distinct(ids)
    ensures SetOf(ids[..i + 1]) == SetOf(ids[..i]) + {ids[i]} && ids[i] !in SetOf(ids[..i])
  {
    assert ids[..i + 1] == ids[..i] + [ids[i]];
  }

  // ---- stages

  function WithStage(w: World, s: State, id: ItemId, row: StageRow): State
    requires id in s.items
  {
    var o := s.domain.nextId;
    s.(items := s.items[id := AdoptedItem(w, s.items[id], Some(o))],
       domain := s.domain.(stages := s.domain.stages[o := row], nextId := o + 1))
  }

  lemma AdoptedFreshStep(w: World, s: State, t: State, t': State, ids: set<ItemId>, id: ItemId)
    requires AdoptedFresh(w, s, t, ids) && id in s.items && id !in ids
    requires t'.items == t.items[id := AdoptedItem(w, t.items[id], Some(t.domain.nextId))]
    requires t'.domain.nextId == t.domain.nextId + 1
    ensures AdoptedFresh(w, s, t', ids + {id})
    ensures t'.items[id].created == Some(t.domain.nextId)
    ensures forall k | k in ids :: k in t.items && t'.items[k] == t.items[k]
  {
    assert t'.items[id].created == Some(t.domain.nextId) && t.items[id] == s.items[id];
    hide AdoptedItem;
  }

  ghost predicate Allocated(d: Domain) {
    && (forall o | o in d.stages :: o < d.nextId)
    && (forall o | o in d.processes :: o < d.nextId)
  }

  /** A bound existing stage was there when it was bound, so its id is not handed out again. */
  ghost predicate ReferenceWithin(d: Domain, i: Item) {
    i.stageReference.Some? && i.stageReference.value.Existing? ==> i.stageReference.value.stage < d.nextId
  }

  /** The database constraints: known items, unique local keys, ids handed out only once, references that exist. */
  ghost predicate Constraints(order: seq<ItemId>, items: Items, d: Domain) {
    && IsOrder(order, items) && LocalKeysUnique(items) && Allocated(d)
    && (forall id | id in items :: ReferenceWithin(d, items[id]) && items[id].decision != CurrentDatabase)
  }

  lemma ConstraintsOrder(order: seq<ItemId>, items: Items, d: Domain)
    requires Constraints(order, items, d)
    ensures IsOrder(order, items)
  {
  }

  lemma AdoptionKeepsConstraints(w: World, order: seq<ItemId>, s: State, t: State, ids: set<ItemId>)
    requires Constraints(order, s.items, s.domain) && AdoptedFresh(w, s, t, ids) && Allocated(t.domain)
    ensures Constraints(order, t.items, t.domain)
  {
    forall id | id in s.items
      ensures t.items[id].localKey == s.items[id].localKey && t.items[id].decision == s.items[id].decision
      ensures t.items[id].stageReference == s.items[id].stageReference
    {
      hide IsOrder;
      hide Allocated;
    }
    hide AdoptedItem;
  }

  /** Review never changes a key, and binds process items only to stages that exist. */
  lemma RejectionKeepsKey(w: World, items: Items, id: ItemId, actor: Actor, i: ItemId)
    requires id in items && i in items
    ensures var items' := RejectItem(w, items, id, actor);
            && items'.Keys == items.Keys && items'[i].localKey == items[i].localKey
            && items'[i].stageReference == items[i].stageReference
            && (items[i].decision != CurrentDatabase ==> items'[i].decision != CurrentDatabase)
  {
  }

  lemma RejectionKeepsConstraints(w: World, order: seq<ItemId>, s: State, id: ItemId, actor: Actor)
    requires id in s.items && Constraints(order, s.items, s.domain)
    ensures var items' := RejectItem(w, s.items, id, actor);
            items'.Keys == s.items.Keys && Constraints(order, items', s.domain)
  {
    hide RejectItem;
    var items' := RejectItem(w, s.items, id, actor);
    RejectionKeepsKey(w, s.items, id, actor, id);
    forall i | i in s.items
      ensures items'[i].localKey == s.items[i].localKey && items'[i].stageReference == s.items[i].stageReference
      ensures items'[i].decision != CurrentDatabase
    {
      RejectionKeepsKey(w, s.items, id, actor, i);
    }
  }

  lemma ReferenceKeepsKeys(s: State, i: Item, input: ReferenceInput, bound: Item)
    requires Allocated(s.domain) && SetReference(s.items, s.domain.stages, i, input, bound)
    ensures bound.localKey == i.localKey && ReferenceWithin(s.domain, bound)
  {
    hide InvalidDependency;
  }

  lemma ConfirmationKeepsConstraints(w: World, h: Header, order: seq<ItemId>, s: State, id: ItemId, actor: Actor,
      action: ReviewAction, items': Items)
    requires id in s.items && Constraints(order, s.items, s.domain)
    requires !action.Reject? && Confirms(w, h, s, id, actor, action, items')
    ensures items'.Keys == s.items.Keys && Constraints(order, items', s.domain)
  {
    hide Snapshot;
    hide SetReference;
    if s.items[id].kind == ProcessAnalysis {
      var bound: Item :| SetReference(s.items, s.domain.stages, s.items[id], action.reference, bound)
        && items' == s.items[id := ConfirmedItem(w, bound, actor, Snapshot(w, id, s.items[id], action).value)];
      ReferenceKeepsKeys(s, s.items[id], action.reference, bound);
    }
    hide Confirms;
    assert id in items' && items' == s.items[id := items'[id]];
  }

  lemma NoStagesAdded(w: World, s: State)
    ensures StagesAdded(w, s, s, StageRowsOf(w, s.items, {}))
  {
  }

  lemma StageRowsStep(w: World, items: Items, ids: set<ItemId>, id: ItemId)
    requires id in items && StageItemReady(w, items[id]) && id !in ids
    ensures StageRowsOf(w, items, ids + {id}) == StageRowsOf(w, items, ids)[id := StageRowOf(w, items[id])]
    ensures id !in StageRowsOf(w, items, ids)
  {
    hide StageItemReady;
    hide StageRowOf;
  }

  lemma ListedStep(before: Items, after: Items, after': Items, ids: set<ItemId>, id: ItemId,
      created: map<string, ObjectId>, o: ObjectId)
    requires Listed(before, after, ids, created) && LocalKeysUnique(before)
    requires id in before && id !in ids && id in after' && after' == after[id := after'[id]]
    requires after'[id].created == Some(o)
    ensures Listed(before, after', ids + {id}, created[before[id].localKey := o])
  {
  }

  lemma NothingListed(items: Items)
    ensures Listed(items, items, {}, map[])
  {
  }

  lemma UntouchedByStages(w: World, s: State, t: State, rows: map<ItemId, StageRow>, id: ItemId)
    requires StagesAdded(w, s, t, rows) && id in s.items && id !in rows
    ensures id in t.items && t.items[id] == s.items[id]
  {
  }

  lemma RowsAddedStep<R>(before: map<ObjectId, R>, after: map<ObjectId, R>, created: map<ItemId, ObjectId>,
      rows: map<ItemId, R>, id: ItemId, o: ObjectId, row: R)
    requires RowsAdded(before, after, created, rows) && id !in created && o !in after
    ensures RowsAdded(before, after[o := row], created[id := o], rows[id := row])
  {
    forall k ensures k in created[id := o].Values <==> k in created.Values || k == o {
      if k == o {
        assert created[id := o][id] == o;
      } else if k in created.Values {
        var j :| j in created && created[j] == k;
        assert created[id := o][j] == k;
      }
    }
  }

  lemma CreatedIdsStep(t: Items, t': Items, ids: set<ItemId>, id: ItemId, o: ObjectId)
    requires id !in ids && id in t' && t'[id].created == Some(o)
    requires forall k | k in ids :: k in t && k in t' && t'[k] == t[k]
    ensures CreatedIds(t', ids + {id}) == CreatedIds(t, ids)[id := o]
  {
  }

  lemma CreatedIdsAre(w: World, s: State, t: State, ids: set<ItemId>)
    requires AdoptedFresh(w, s, t, ids)
    ensures CreatedIds(t.items, ids).Keys == ids && ids <= t.items.Keys
  {
  }

  lemma StagesAddedStep(w: World, s: State, t: State, rows: map<ItemId, StageRow>, id: ItemId, row: StageRow)
    requires StagesAdded(w, s, t, rows) && Allocated(t.domain)
    requires id in s.items && id in t.items && id !in rows
    ensures var t' := WithStage(w, t, id, row);
            StagesAdded(w, s, t', rows[id := row]) && Allocated(t'.domain)
  {
    hide AdoptedItem;
    hide AdoptedFresh;
    hide RowsAdded;
    hide CreatedIds;
    var ids, t', o := rows.Keys, WithStage(w, t, id, row), t.domain.nextId;
    assert rows[id := row].Keys == ids + {id};
    AdoptedFreshStep(w, s, t, t', ids, id);
    CreatedIdsAre(w, s, t, ids);
    CreatedIdsStep(t.items, t'.items, ids, id, o);
    RowsAddedStep(s.domain.stages, t.domain.stages, CreatedIds(t.items, ids), rows, id, o, row);
  }

  // ---- processes

  function WithProcess(w: World, s: State, id: ItemId, row: ProcessRow): State
    requires id in s.items
  {
    var o := s.domain.nextId;
    s.(items := s.items[id := AdoptedItem(w, s.items[id], Some(o))],
       domain := s.domain.(processes := s.domain.processes[o := row], nextId := o + 1))
  }

  lemma ProcessesAddedStep(w: World, s: State, t: State, rows: map<ItemId, ProcessRow>, id: ItemId, row: ProcessRow)
    requires ProcessesAdded(w, s, t, rows) && Allocated(t.domain)
    requires id in s.items && id in t.items && id !in rows
    ensures var t' := WithProcess(w, t, id, row);
            ProcessesAdded(w, s, t', rows[id := row]) && Allocated(t'.domain)
  {
    hide AdoptedItem;
    hide AdoptedFresh;
    hide RowsAdded;
    hide CreatedIds;
    var ids, t', o := rows.Keys, WithProcess(w, t, id, row), t.domain.nextId;
    assert rows[id := row].Keys == ids + {id};
    AdoptedFreshStep(w, s, t, t', ids, id);
    CreatedIdsAre(w, s, t, ids);
    CreatedIdsStep(t.items, t'.items, ids, id, o);
    RowsAddedStep(s.domain.processes, t.domain.processes, CreatedIds(t.items, ids), rows, id, o, row);
  }

  /** Adopting process items does not change what a stage reference resolves to. */
  lemma ResolveIsStable(w: World, s: State, t: State, rows: map<ItemId, ProcessRow>, i: Item)
    requires ProcessesAdded(w, s, t, rows)
    requires forall id | id in rows :: id in s.items && s.items[id].kind == ProcessAnalysis
    ensures ResolveStage(t, i) == ResolveStage(s, i)
  {
    hide ValidLocalKey;
    hide RowsAdded;
    hide CreatedIds;
  }

  lemma NoProcessesAdded(w: World, h: Header, s: State)
    ensures ProcessesAdded(w, s, s, ProcessRowsOf(w, h, s, {}))
  {
  }

  lemma ProcessRowsStep(w: World, h: Header, s: State, ids: set<ItemId>, id: ItemId)
    requires id in s.items && ProcessItemReady(w, h, s.items[id]) && ResolveStage(s, s.items[id]).Some? && id !in ids
    ensures ProcessRowsOf(w, h, s, ids + {id}) == ProcessRowsOf(w, h, s, ids)[id := ProcessRowOf(w, h, s, id)]
    ensures id !in ProcessRowsOf(w, h, s, ids)
  {
    hide ProcessItemReady;
    hide ProcessRowOf;
    hide ResolveStage;
  }

  lemma ProcessRowsAreProcesses(w: World, h: Header, s: State, ids: set<ItemId>)
    ensures forall id | id in ProcessRowsOf(w, h, s, ids) :: id in ids && id in s.items && s.items[id].kind == ProcessAnalysis
  {
    hide ProcessRowOf;
    hide ResolveStage;
    hide ValidLocalKey;
    hide ValidProcessValues;
  }

  lemma UntouchedByProcesses(w: World, s: State, t: State, rows: map<ItemId, ProcessRow>, id: ItemId)
    requires ProcessesAdded(w, s, t, rows) && id in s.items && id !in rows
    ensures id in t.items && t.items[id] == s.items[id]
  {
  }

  /** Whether a process item can be adopted in a given state. */
  predicate ProcessReady(w: World, h: Header, s: State, id: ItemId) {
    id in s.items && ProcessItemReady(w, h, s.items[id]) && ResolveStage(s, s.items[id]).Some?
  }

  /** Earlier process items change neither the readiness of a later one nor the row it creates. */
  lemma ProcessReadyIsStable(w: World, h: Header, s: State, t: State, ids: set<ItemId>, id: ItemId)
    requires ProcessesAdded(w, s, t, ProcessRowsOf(w, h, s, ids)) && id in s.items && id !in ids
    ensures id in t.items && t.items[id] == s.items[id]
    ensures ResolveStage(t, s.items[id]) == ResolveStage(s, s.items[id])
    ensures ProcessReady(w, h, t, id) <==> ProcessReady(w, h, s, id)
    ensures ProcessReady(w, h, s, id) ==> ProcessRowOf(w, h, t, id) == ProcessRowOf(w, h, s, id)
  {
    ProcessRowsAreProcesses(w, h, s, ids);
    hide ProcessRowsOf;
    hide ProcessItemReady;
    ResolveIsStable(w, s, t, ProcessRowsOf(w, h, s, ids), s.items[id]);
    hide ResolveStage;
    UntouchedByProcesses(w, s, t, ProcessRowsOf(w, h, s, ids), id);
    hide ProcessesAdded;
  }

  lemma NoProcessesListed(s: State)
    ensures ProcessesListed(s, s.items, {}, map[])
  {
  }

  lemma ProcessesListedStep(s: State, after: Items, after': Items, ids: set<ItemId>, id: ItemId,
      results: map<string, ProcessResult>, r: ProcessResult)
    requires ProcessesListed(s, after, ids, results) && LocalKeysUnique(s.items)
    requires id in s.items && id !in ids && id in after' && after' == after[id := after'[id]]
    requires after'[id].created == Some(r.process) && ResolveStage(s, s.items[id]) == Some(r.stage)
    ensures ProcessesListed(s, after', ids + {id}, results[s.items[id].localKey := r])
  {
    hide ResolveStage;
  }

  // ---- metrics

  lemma MetricItemIs(items: Items, ids: set<ItemId>, id: ItemId)
    requires ids <= items.Keys && PathsUnique(items, ids) && id in ids && MetricValue(items[id]).Some?
    ensures MetricItem(items, ids, items[id].targetPath) == Some(id)
  {
  }

  /** The confirmed item of each metric path. */
  ghost predicate ConfirmedBy(items: Items, ids: set<ItemId>, confirmed: map<string, ItemId>) {
    && (forall id | id in ids :: id in items && items[id].targetPath in confirmed && confirmed[items[id].targetPath] == id)
    && (forall p | p in confirmed :: confirmed[p] in ids && confirmed[p] in items && items[confirmed[p]].targetPath == p)
  }

  lemma UnconfirmedPath(items: Items, metrics: Fields, ids: set<ItemId>, confirmed: map<string, ItemId>, path: string)
    requires ids <= items.Keys && ConfirmedBy(items, ids, confirmed) && path !in confirmed
    ensures EffectiveMetric(items, metrics, ids, path) == Metric(metrics, path)
    ensures MetricSource(items, ids, path) == CurrentDatabase
  {
    hide MetricValue;
    hide Metric;
  }

  lemma ConfirmedPath(items: Items, metrics: Fields, ids: set<ItemId>, confirmed: map<string, ItemId>, path: string)
    requires ids <= items.Keys && PathsUnique(items, ids) && ConfirmedBy(items, ids, confirmed)
    requires path in confirmed && MetricValue(items[confirmed[path]]).Some?
    ensures EffectiveMetric(items, metrics, ids, path) == MetricValue(items[confirmed[path]]).value
    ensures MetricSource(items, ids, path) == items[confirmed[path]].decision
  {
    MetricItemIs(items, ids, confirmed[path]);
    hide MetricValue;
    hide MetricItem;
    hide PathsUnique;
  }

  predicate PathFits(items: Items, metrics: Fields, confirmed: map<string, ItemId>, path: string) {
    path in confirmed ==> confirmed[path] in items && MetricFits(metrics, items[confirmed[path]])
  }

  lemma PathsFit(items: Items, metrics: Fields, ids: set<ItemId>, confirmed: map<string, ItemId>)
    requires ids <= items.Keys && ConfirmedBy(items, ids, confirmed)
    requires forall id | id in ids :: MetricItemUsable(items[id])
    ensures (forall k | 0 <= k < |MetricPaths()| :: PathFits(items, metrics, confirmed, MetricPaths()[k])) <==>
            forall id | id in ids :: MetricFits(metrics, items[id])
  {
    hide MetricFits;
    var paths := MetricPaths();
    assert forall id | id in ids :: items[id].targetPath in paths;
    hide MetricPaths;
    hide MetricItemUsable;
  }

  /** The merge stops at path `n`, at a field that was changed. */
  lemma MergeClashes(items: Items, metrics: Fields, ids: set<ItemId>, confirmed: map<string, ItemId>, n: nat)
    requires ids <= items.Keys && ConfirmedBy(items, ids, confirmed) && n < |MetricPaths()|
    requires forall k | 0 <= k < n :: PathFits(items, metrics, confirmed, MetricPaths()[k])
    requires !PathFits(items, metrics, confirmed, MetricPaths()[n])
    ensures MetricPaths()[n] in confirmed
    ensures (exists m :: ClashesAt(items, metrics, ids, m)) <==> !MetricUnchanged(metrics, items[confirmed[MetricPaths()[n]]])
  {
    var paths := MetricPaths();
    PathsDiffer();
    hide MetricPaths;
    var id := confirmed[paths[n]];
    if !MetricUnchanged(metrics, items[id]) {
      assert ClashesAt(items, metrics, ids, n);
    }
    forall m: nat | ClashesAt(items, metrics, ids, m) ensures m == n {
    }
    hide MetricUnchanged;
    hide MetricValue;
  }

  lemma PathsDiffer()
    ensures forall i, j | 0 <= i < j < |MetricPaths()| :: MetricPaths()[i] != MetricPaths()[j]
  {
  }

  lemma NoMergeClash(items: Items, metrics: Fields, ids: set<ItemId>)
    requires ids <= items.Keys && forall id | id in ids :: MetricFits(metrics, items[id])
    ensures forall m :: !ClashesAt(items, metrics, ids, m)
  {
  }

  /** The merge has reached the given paths. */
  ghost predicate MergedFrom(items: Items, metrics: Fields, ids: set<ItemId>, paths: seq<string>, effective: Fields,
    sources: map<string, Decision>)
    requires ids <= items.Keys
  {
    && (forall p :: p in effective <==> p in paths)
    && (forall p :: p in sources <==> p in paths)
    && (forall p | p in effective :: effective[p] == EffectiveMetric(items, metrics, ids, p))
    && (forall p | p in sources :: sources[p] == MetricSource(items, ids, p))
  }

  lemma NothingMerged(items: Items, metrics: Fields, ids: set<ItemId>)
    requires ids <= items.Keys
    ensures MergedFrom(items, metrics, ids, [], map[], map[])
  {
  }

  lemma MergedStep(items: Items, metrics: Fields, ids: set<ItemId>, paths: seq<string>, effective: Fields,
      sources: map<string, Decision>, path: string)
    requires ids <= items.Keys && MergedFrom(items, metrics, ids, paths, effective, sources)
    ensures MergedFrom(items, metrics, ids, paths + [path], effective[path := EffectiveMetric(items, metrics, ids, path)],
              sources[path := MetricSource(items, ids, path)])
  {
    hide EffectiveMetric;
    hide MetricSource;
  }

  lemma MergedIs(items: Items, metrics: Fields, ids: set<ItemId>, effective: Fields, sources: map<string, Decision>)
    requires ids <= items.Keys && MergedFrom(items, metrics, ids, MetricPaths(), effective, sources)
    ensures effective == EffectiveMetrics(items, metrics, ids)
    ensures sources == map p | p in MetricPaths() :: MetricSource(items, ids, p)
  {
    hide EffectiveMetric;
    hide MetricSource;
    hide MetricPaths;
  }

  ghost predicate MetricItemsMarked(w: World, before: Items, after: Items, ids: set<ItemId>) {
    && after.Keys == before.Keys
    && forall id | id in before :: after[id] == if id in ids then AdoptedItem(w, before[id], before[id].created) else before[id]
  }

  lemma NoneSelected(ids: seq<ItemId>)
    ensures SetOf(ids) == {} <==> ids == []
  {
    if ids != [] {
      assert ids[0] in SetOf(ids);
    }
  }

  // ---- stage references across the stage loop

  lemma NothingAdoptedYet(order: seq<ItemId>, s: State, id: ItemId)
    requires IsOrder(order, s.items) && GraphAccepted(order, s) && id in s.items
    ensures s.items[id].status != Adopted
  {
    assert ItemAccepted(s.items, s.items[id]);
  }

  lemma LocalResolvesAfterStages(w: World, order: seq<ItemId>, s: State, mid: State, rows: map<ItemId, StageRow>, i: Item)
    requires IsOrder(order, s.items) && GraphAccepted(order, s)
    requires StagesAdded(w, s, mid, rows) && rows.Keys == SelectedItems(s.items, ValueStreamStage)
    requires i.stageReference.Some? && i.stageReference.value.Local?
    ensures ResolveStage(mid, i).Some? <==> StageWillResolve(s.items, s.domain, i)
    ensures ResolveStage(mid, i).Some? ==> ResolveStage(mid, i) == mid.items[i.dependsOn.value].created
  {
    hide ValidLocalKey;
    if i.dependsOn.Some? && i.dependsOn.value in s.items {
      var d := i.dependsOn.value;
      NothingAdoptedYet(order, s, d);
      hide GraphAccepted;
      if d in rows {
        assert CreatedIds(mid.items, rows.Keys)[d] in CreatedIds(mid.items, rows.Keys).Values;
      }
    }
  }

  lemma ExistingResolvesAfterStages(w: World, s: State, mid: State, rows: map<ItemId, StageRow>, i: Item)
    requires StagesAdded(w, s, mid, rows)
    requires i.stageReference.Some? && i.stageReference.value.Existing?
    requires i.stageReference.value.stage < s.domain.nextId
    ensures ResolveStage(mid, i).Some? <==> StageWillResolve(s.items, s.domain, i)
  {
  }

  /** After the stage loop a process item finds its stage exactly when it was going to. */
  lemma ResolveAfterStages(w: World, order: seq<ItemId>, s: State, mid: State, rows: map<ItemId, StageRow>, i: Item)
    requires IsOrder(order, s.items) && GraphAccepted(order, s)
    requires StagesAdded(w, s, mid, rows) && rows.Keys == SelectedItems(s.items, ValueStreamStage)
    requires i.stageReference.Some? && i.stageReference.value.Existing? ==> i.stageReference.value.stage < s.domain.nextId
    ensures ResolveStage(mid, i).Some? <==> StageWillResolve(s.items, s.domain, i)
  {
    if i.stageReference.Some? {
      if i.stageReference.value.Existing? {
        ExistingResolvesAfterStages(w, s, mid, rows, i);
      } else {
        LocalResolvesAfterStages(w, order, s, mid, rows, i);
      }
    }
    hide StagesAdded;
  }

  // ---- the two groups

  lemma NothingClashes(items: Items, d: Domain)
    ensures !MetricsClash(items, d, {}) && !StagesClash(items, d, [])
  {
    hide PathsUnique;
    hide MetricPaths;
  }

  lemma UnusableDoesNotClash(items: Items, d: Domain, ids: set<ItemId>)
    requires ids <= items.Keys && !((forall id | id in ids :: MetricItemUsable(items[id])) && PathsUnique(items, ids))
    ensures !MetricsClash(items, d, ids)
  {
    hide PathsUnique;
    hide MetricItemUsable;
    hide ClashesAt;
  }

  lemma UsableClash(items: Items, d: Domain, ids: set<ItemId>)
    requires ids <= items.Keys && (forall id | id in ids :: MetricItemUsable(items[id])) && PathsUnique(items, ids)
    ensures MetricsClash(items, d, ids) <==> exists n :: ClashesAt(items, d.metrics, ids, n)
  {
    hide PathsUnique;
    hide MetricItemUsable;
    hide ClashesAt;
  }

  /** If no item repeats a sequence the sequences are distinct. */
  lemma RepeatsIff(items: Items, ids: seq<ItemId>)
    requires Distinct(ids) && forall id | id in ids :: id in items && StageValuesReady(items[id])
    ensures SequencesDistinct(items, SetOf(ids)) <==> forall n :: !RepeatsAt(items, ids, n)
  {
    hide StageValuesReady;
    hide SequenceOf;
    if SequencesDistinct(items, SetOf(ids)) {
      forall n: nat ensures !RepeatsAt(items, ids, n) {
      }
    }
    if forall n :: !RepeatsAt(items, ids, n) {
      forall a, b | a in SetOf(ids) && b in SetOf(ids) && SequenceOf(items[a]) == SequenceOf(items[b]) ensures a == b {
        var i, j :| 0 <= i < |ids| && 0 <= j < |ids| && ids[i] == a && ids[j] == b;
        assert !RepeatsAt(items, ids, i) && !RepeatsAt(items, ids, j);
      }
    }
  }

  lemma MetricSelection(w: World, h: Header, order: seq<ItemId>, items: Items, d: Domain, ids: seq<ItemId>)
    requires h.targetType == UseCase && SetOf(ids) == SelectedItems(items, MetricSet)
    ensures forall id | id in ids :: id in items
    ensures DomainAccepts(w, h, items, d) <==> KindsAllowed(items, {MetricSet}) && ids != [] && MetricsReady(w, items, d, SetOf(ids))
    ensures DomainClash(h, order, items, d) <==> KindsAllowed(items, {MetricSet}) && MetricsClash(items, d, SetOf(ids))
    ensures ids == [] ==> !DomainClash(h, order, items, d)
  {
    if ids == [] {
      NothingClashes(items, d);
    }
    NoneSelected(ids);
    assert forall id | id in ids :: id in SetOf(ids);
    hide KindsAllowed;
    hide MetricsReady;
    hide MetricsClash;
    hide SetOf;
  }

  lemma MarkingKeepsConstraints(w: World, order: seq<ItemId>, s: State, s': State, ids: set<ItemId>)
    requires Constraints(order, s.items, s.domain) && MetricItemsMarked(w, s.items, s'.items, ids)
    requires s'.domain.(metrics := s.domain.metrics) == s.domain
    ensures Constraints(order, s'.items, s'.domain)
  {
    forall id | id in s.items
      ensures s'.items[id].localKey == s.items[id].localKey && s'.items[id].decision == s.items[id].decision
      ensures s'.items[id].stageReference == s.items[id].stageReference
    {
    }
    hide MetricItemsMarked;
  }

  lemma MetricGroupExecuted(w: World, h: Header, order: seq<ItemId>, s: State, s': State, ids: seq<ItemId>, result: ResultSnapshot)
    requires h.targetType == UseCase && SetOf(ids) == SelectedItems(s.items, MetricSet)
    requires MetricsReady(w, s.items, s.domain, SetOf(ids)) && MetricItemsMarked(w, s.items, s'.items, SetOf(ids))
    requires s'.batch == s.batch && s'.audits == s.audits
    requires s'.domain == s.domain.(metrics := SaveMetrics(s.domain.metrics,
                            w.metricForm(EffectiveMetrics(s.items, s.domain.metrics, SetOf(ids))).value))
    requires result.MetricResult? && result.attempt == s.batch.attempts
    requires result.effective == map p | p in MetricPaths() :: Metric(s'.domain.metrics, p)
    requires result.sources == map p | p in MetricPaths() :: MetricSource(s.items, SetOf(ids), p)
    requires result.changed == ChangedMetrics(s.domain.metrics, s'.domain.metrics)
    requires Constraints(order, s.items, s.domain)
    ensures GroupExecuted(w, h, s, s, s') && ResultFits(h, s, s, s', result)
    ensures Constraints(order, s'.items, s'.domain)
  {
    MarkingKeepsConstraints(w, order, s, s', SetOf(ids));
    hide Constraints;
    hide EffectiveMetrics;
    hide SaveMetrics;
    hide MetricPaths;
    hide MetricSource;
    hide Metric;
    hide ChangedMetrics;
    hide AdoptedItem;
    hide PathsUnique;
    hide MetricItemReady;
    hide SetOf;
  }

  lemma StreamSelection(w: World, h: Header, items: Items, d: Domain, stageIds: seq<ItemId>, processIds: seq<ItemId>)
    requires h.targetType == ValueStream
    requires SetOf(stageIds) == SelectedItems(items, ValueStreamStage) && SetOf(processIds) == SelectedItems(items, ProcessAnalysis)
    ensures forall id | id in stageIds :: id in items && items[id].kind == ValueStreamStage
    ensures forall id | id in processIds :: id in items && items[id].kind == ProcessAnalysis
    ensures DomainAccepts(w, h, items, d) <==>
              && KindsAllowed(items, {ValueStreamStage, ProcessAnalysis}) && !(stageIds == [] && processIds == [])
              && StagesReady(w, items, d, SetOf(stageIds))
              && forall id | id in processIds :: ProcessItemReady(w, h, items[id]) && StageWillResolve(items, d, items[id])
  {
    NoneSelected(stageIds);
    NoneSelected(processIds);
    assert forall id :: id in stageIds <==> id in SetOf(stageIds);
    assert forall id :: id in processIds <==> id in SetOf(processIds);
    hide KindsAllowed;
    hide StagesReady;
    hide ProcessItemReady;
    hide StageWillResolve;
    hide SetOf;
  }

  lemma StreamClash(h: Header, order: seq<ItemId>, items: Items, d: Domain)
    requires h.targetType == ValueStream
    ensures var ids := SelectedInOrder(order, items, ValueStreamStage);
            && (DomainClash(h, order, items, d) <==> KindsAllowed(items, {ValueStreamStage, ProcessAnalysis}) && StagesClash(items, d, ids))
            && (ids == [] ==> !DomainClash(h, order, items, d))
  {
    NothingClashes(items, d);
    hide KindsAllowed;
    hide StagesClash;
    hide SelectedInOrder;
  }

  /** Once the stage loop is through, the process loop succeeds exactly when it was going to. */
  lemma ProcessesAfterStages(w: World, h: Header, order: seq<ItemId>, s: State, mid: State, stageIds: set<ItemId>,
      processIds: seq<ItemId>)
    requires IsOrder(order, s.items) && GraphAccepted(order, s)
    requires StagesCreated(w, s, mid, stageIds) && stageIds == SelectedItems(s.items, ValueStreamStage)
    requires forall id | id in processIds :: id in s.items && s.items[id].kind == ProcessAnalysis
    requires Constraints(order, s.items, s.domain) && Allocated(mid.domain)
    ensures Constraints(order, mid.items, mid.domain) && LocalKeysUnique(mid.items)
    ensures forall id | id in processIds :: id in mid.items
    ensures (forall id | id in processIds :: ProcessReady(w, h, mid, id)) <==>
            (forall id | id in processIds :: ProcessItemReady(w, h, s.items[id]) && StageWillResolve(s.items, s.domain, s.items[id]))
  {
    hide ResolveStage;
    hide StageWillResolve;
    hide GraphAccepted;
    hide StagesAdded;
    hide StageItemReady;
    ConstraintsOrder(order, s.items, s.domain);
    var rows := StageRowsOf(w, s.items, stageIds);
    assert rows.Keys == stageIds;
    StagesAreFresh(w, s, mid, rows);
    AdoptionKeepsConstraints(w, order, s, mid, stageIds);
    hide AdoptedFresh;
    hide StageRowsOf;
    hide LocalKeysUnique;
    hide Allocated;
    forall id | id in processIds
      ensures id in mid.items && mid.items[id] == s.items[id]
      ensures ResolveStage(mid, s.items[id]).Some? <==> StageWillResolve(s.items, s.domain, s.items[id])
    {
      SelectedKind(s.items, id);
      UntouchedByStages(w, s, mid, rows, id);
      ResolveAfterStages(w, order, s, mid, rows, s.items[id]);
    }
    hide ProcessItemReady;
    hide Constraints;
  }

  lemma SelectedKind(items: Items, id: ItemId)
    requires id in items
    ensures forall kind :: id in SelectedItems(items, kind) ==> kind == items[id].kind
  {
  }

  lemma StagesAreFresh(w: World, s: State, mid: State, rows: map<ItemId, StageRow>)
    requires StagesAdded(w, s, mid, rows)
    ensures AdoptedFresh(w, s, mid, rows.Keys)
  {
    hide AdoptedFresh;
    hide RowsAdded;
  }

  lemma ProcessesKeepConstraints(w: World, order: seq<ItemId>, mid: State, s': State, rows: map<ItemId, ProcessRow>)
    requires Constraints(order, mid.items, mid.domain) && ProcessesAdded(w, mid, s', rows) && Allocated(s'.domain)
    ensures Constraints(order, s'.items, s'.domain)
  {
    AdoptionKeepsConstraints(w, order, mid, s', rows.Keys);
  }

  lemma StreamGroupExecuted(w: World, h: Header, s: State, mid: State, s': State, stageIds: seq<ItemId>, processIds: seq<ItemId>,
      result: ResultSnapshot)
    requires h.targetType == ValueStream
    requires SetOf(stageIds) == SelectedItems(s.items, ValueStreamStage) && SetOf(processIds) == SelectedItems(s.items, ProcessAnalysis)
    requires StagesCreated(w, s, mid, SetOf(stageIds))
    requires forall id | id in processIds :: ProcessReady(w, h, mid, id)
    requires ProcessesAdded(w, mid, s', ProcessRowsOf(w, h, mid, SetOf(processIds)))
    requires result.StreamResult? && result.attempt == s.batch.attempts
    requires Listed(s.items, mid.items, SetOf(stageIds), result.stages)
    requires ProcessesListed(mid, s'.items, SetOf(processIds), result.processes)
    ensures GroupExecuted(w, h, s, mid, s') && ResultFits(h, s, mid, s', result)
  {
    hide StagesCreated;
    hide Listed;
    hide ProcessesListed;
    hide ProcessRowsOf;
    hide ProcessesAdded;
    hide ProcessItemReady;
    hide ResolveStage;
  }
}
