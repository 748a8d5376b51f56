/** What one execution achieves, stated apart from how it proceeds. */
module StructuredOutcome {
  import opened Options
  import opened StructuredModel
  import opened StructuredReview
  import opened StructuredExecution
  import opened StructuredSteps

  // ---- the items

  /** An item after the commit: adopted if it was confirmed, untouched if it was rejected. */
  predicate ItemResolved(w: World, i: Item, i': Item) {
    if i.decision == Rejected then i' == i && i.status == ItemRejected
    else i.status == Confirmed && i' == AdoptedItem(w, i, i'.created)
  }

  ghost predicate ItemsResolved(w: World, before: Items, after: Items) {
    after.Keys == before.Keys && forall id | id in before :: ItemResolved(w, before[id], after[id])
  }

  lemma KindsMatch(w: World, h: Header, items: Items, d: Domain, id: ItemId)
    requires DomainAccepts(w, h, items, d) && id in items && items[id].decision != Rejected
    ensures items[id].kind == MetricSet <==> h.targetType == UseCase
  {
    hide MetricsReady;
    hide StagesReady;
    hide ProcessItemReady;
    hide StageWillResolve;
    hide SelectedItems;
  }

  lemma AllSelected(h: Header, w: World, order: seq<ItemId>, s: State, id: ItemId)
    requires IsOrder(order, s.items) && GraphAccepted(order, s) && DomainAccepts(w, h, s.items, s.domain) && id in s.items
    ensures s.items[id].decision == Rejected ==> s.items[id].status == ItemRejected
    ensures s.items[id].decision != Rejected ==> s.items[id].status == Confirmed && id in SelectedItems(s.items, s.items[id].kind)
    ensures s.items[id].decision != Rejected ==> (s.items[id].kind == MetricSet <==> h.targetType == UseCase)
  {
    assert ItemAccepted(s.items, s.items[id]);
    if s.items[id].decision != Rejected {
      KindsMatch(w, h, s.items, s.domain, id);
      SelectedIs(s.items, id);
    }
    hide SelectedItems;
    hide DomainAccepts;
    hide GraphAccepted;
  }

  lemma SelectedIs(items: Items, id: ItemId)
    requires id in items
    ensures id in SelectedItems(items, items[id].kind) <==> Selected(items[id].decision) && items[id].status == Confirmed
    ensures forall kind :: id in SelectedItems(items, kind) ==> kind == items[id].kind
  {
  }

  lemma StagesAdopted(w: World, s: State, mid: State, ids: set<ItemId>)
    requires StagesCreated(w, s, mid, ids)
    ensures AdoptedFresh(w, s, mid, ids)
    ensures mid.domain.processes == s.domain.processes && mid.domain.metrics == s.domain.metrics
  {
    assert StageRowsOf(w, s.items, ids).Keys == ids;
    hide StageItemReady;
    hide AdoptedFresh;
    hide RowsAdded;
    hide CreatedIds;
  }

  lemma ProcessesAdopted(w: World, h: Header, mid: State, s': State, ids: set<ItemId>)
    requires ProcessesCreated(w, h, mid, s', ids)
    ensures AdoptedFresh(w, mid, s', ids)
    ensures s'.domain.stages == mid.domain.stages && s'.domain.metrics == mid.domain.metrics
  {
    assert ProcessRowsOf(w, h, mid, ids).Keys == ids;
    hide ProcessItemReady;
    hide ResolveStage;
    hide AdoptedFresh;
    hide RowsAdded;
    hide CreatedIds;
  }

  lemma OnlyAdoptedChange(w: World, s: State, t: State, ids: set<ItemId>, id: ItemId)
    requires AdoptedFresh(w, s, t, ids) && id in s.items
    ensures t.items.Keys == s.items.Keys
    ensures id !in ids ==> t.items[id] == s.items[id]
    ensures id in ids ==> t.items[id] == AdoptedItem(w, s.items[id], t.items[id].created)
  {
  }

  lemma GroupResolvesItem(w: World, h: Header, order: seq<ItemId>, s: State, mid: State, s': State, id: ItemId)
    requires IsOrder(order, s.items) && GraphAccepted(order, s) && DomainAccepts(w, h, s.items, s.domain)
    requires GroupExecuted(w, h, s, mid, s') && id in s.items
    ensures s'.items.Keys == s.items.Keys && ItemResolved(w, s.items[id], s'.items[id])
  {
    hide StagesCreated;
    hide ProcessesCreated;
    hide GraphAccepted;
    hide DomainAccepts;
    hide SelectedItems;
    hide EffectiveMetrics;
    hide SaveMetrics;
    AllSelected(h, w, order, s, id);
    SelectedIs(s.items, id);
    if h.targetType == ValueStream {
      StagesAdopted(w, s, mid, SelectedItems(s.items, ValueStreamStage));
      ProcessesAdopted(w, h, mid, s', SelectedItems(s.items, ProcessAnalysis));
      OnlyAdoptedChange(w, s, mid, SelectedItems(s.items, ValueStreamStage), id);
      OnlyAdoptedChange(w, mid, s', SelectedItems(s.items, ProcessAnalysis), id);
      hide AdoptedFresh;
    }
  }

  /** Every confirmed item is adopted, every rejected one stays as it was; there is no third kind. */
  lemma ExecutionResolvesItems(w: World, h: Header, order: seq<ItemId>, s: State, actor: Actor, key: IdempotencyKey, s': State)
    requires IsOrder(order, s.items) && CanExecute(w, h, order, s, actor, key) && Executed(w, h, s, actor, s')
    ensures ItemsResolved(w, s.items, s'.items)
  {
    var mid :| ExecutedVia(w, h, s, actor, mid, s');
    var done := State(s.batch, s'.items, s'.domain, s.audits);
    hide GraphAccepted;
    hide DomainAccepts;
    hide GroupExecuted;
    hide ResultFits;
    hide ItemResolved;
    hide KeyHolds;
    forall id | id in s.items ensures s'.items.Keys == s.items.Keys && ItemResolved(w, s.items[id], s'.items[id]) {
      GroupResolvesItem(w, h, order, s, mid, done, id);
    }
    assert s'.items.Keys == s.items.Keys by {
      assert s.items != map[] by { GraphNotEmpty(order, s); }
      var id :| id in s.items;
    }
  }

  lemma GraphNotEmpty(order: seq<ItemId>, s: State)
    requires IsOrder(order, s.items) && GraphAccepted(order, s)
    ensures s.items != map[]
  {
  }

  lemma ResolvedMeansSelected(w: World, order: seq<ItemId>, s: State, s': State, id: ItemId)
    requires IsOrder(order, s.items) && GraphAccepted(order, s) && ItemsResolved(w, s.items, s'.items) && id in s.items
    ensures s'.items[id].status == Adopted <==> Selected(s.items[id].decision)
  {
    assert ItemAccepted(s.items, s.items[id]) && ItemResolved(w, s.items[id], s'.items[id]);
  }

  /** The key of an executable batch spells out the batch's current items. */
  lemma KeySpellsGraph(w: World, h: Header, order: seq<ItemId>, s: State, actor: Actor, key: IdempotencyKey)
    requires IsOrder(order, s.items) && CanExecute(w, h, order, s, actor, key)
    ensures key.IdempotencyKey? && key.graph == GraphHash(GraphOf(order, s.items)) && GraphAccepted(order, s)
  {
    hide DomainAccepts;
    hide ItemAccepted;
    hide EntryOf;
  }

  /** Entry `n` of the key's graph is item `order[n]` before the commit, adopted exactly if the entry is selected. */
  predicate AdoptsEntry(order: seq<ItemId>, key: IdempotencyKey, before: Items, after: Items, n: nat) {
    && key.IdempotencyKey? && key.graph.GraphHash? && n < |order| && n < |key.graph.entries|
    && order[n] in before && order[n] in after
    && key.graph.entries[n] == EntryOf(before[order[n]])
    && (after[order[n]].status == Adopted <==> Selected(key.graph.entries[n].decision))
  }

  lemma EntryAdopted(w: World, order: seq<ItemId>, key: IdempotencyKey, s: State, s': State, n: nat)
    requires IsOrder(order, s.items) && GraphAccepted(order, s) && ItemsResolved(w, s.items, s'.items) && n < |order|
    requires key.IdempotencyKey? && key.graph == GraphHash(GraphOf(order, s.items))
    ensures AdoptsEntry(order, key, s.items, s'.items, n)
  {
    assert order[n] in order;
    ResolvedMeansSelected(w, order, s, s', order[n]);
    hide GraphAccepted;
    hide ItemResolved;
    hide Selected;
  }

  /**
   * A commit that succeeds with a key adopts exactly the entries that the graph sealed in this key
   * shows as selected, and there is no item the key does not name.
   */
  lemma CommitAdoptsSealedGraph(w: World, h: Header, order: seq<ItemId>, s: State, actor: Actor, key: IdempotencyKey, s': State)
    requires IsOrder(order, s.items) && CanExecute(w, h, order, s, actor, key) && Executed(w, h, s, actor, s')
    ensures IsOrder(order, s'.items) && key.IdempotencyKey? && key.graph.GraphHash? && |key.graph.entries| == |order|
    ensures forall n: nat | n < |order| :: AdoptsEntry(order, key, s.items, s'.items, n)
  {
    hide Executed;
    hide CanExecute;
    hide GraphAccepted;
    hide AdoptsEntry;
    hide ItemResolved;
    hide GraphOf;
    hide IsOrder;
    hide EntryOf;
    ExecutionResolvesItems(w, h, order, s, actor, key, s');
    KeySpellsGraph(w, h, order, s, actor, key);
    assert IsOrder(order, s'.items) && |key.graph.entries| == |order| by { SameKeys(order, s.items, s'.items); }
    forall n: nat | n < |order| ensures AdoptsEntry(order, key, s.items, s'.items, n) {
      EntryAdopted(w, order, key, s, s', n);
    }
  }

  lemma SameKeys(order: seq<ItemId>, items: Items, items': Items)
    requires IsOrder(order, items) && items'.Keys == items.Keys
    ensures IsOrder(order, items') && |GraphOf(order, items)| == |order|
  {
  }

  // ---- the value stream

  /** The stage item stands for a new stage with its fields. */
  predicate StageMade(w: World, s: State, s': State, id: ItemId) {
    && id in s.items && id in s'.items && s'.items[id].created.Some? && StageItemReady(w, s.items[id])
    && var o := s'.items[id].created.value;
       o !in s.domain.stages && o in s'.domain.stages && s'.domain.stages[o] == StageRowOf(w, s.items[id])
  }

  /** The process item stands for a new process, attached to the stage its reference names: an existing
      one, or the one this very commit created for the item it depends on. */
  predicate ProcessMade(w: World, s: State, s': State, id: ItemId) {
    && id in s.items && id in s'.items && s'.items[id].created.Some?
    && var o := s'.items[id].created.value;
       o !in s.domain.processes && o in s'.domain.processes
       && s'.domain.processes[o].item == id && s'.domain.processes[o].analyzedBy == s.items[id].confirmedBy
       && HasConfirmedFields(w, s.items[id], s'.domain.processes[o].fields)
       && AttachedTo(s, s', s.items[id], s'.domain.processes[o].stage)
  }

  /** The fields are the confirmed ones, as the process form cleans them. */
  predicate HasConfirmedFields(w: World, i: Item, fields: Fields) {
    && ConfirmedFields(i).Some? && ValidProcessValues(ConfirmedFields(i).value)
    && w.processForm(ProcessValues(ConfirmedFields(i).value)) == Some(fields)
  }

  predicate AttachedTo(s: State, s': State, i: Item, stage: ObjectId) {
    match i.stageReference
    case None => false
    case Some(Existing(existing)) => stage == existing && stage in s.domain.stages
    case Some(Local(key)) =>
      i.dependsOn.Some? && i.dependsOn.value in s.items && i.dependsOn.value in s'.items
      && s.items[i.dependsOn.value].localKey == key && s'.items[i.dependsOn.value].created == Some(stage)
      && stage !in s.domain.stages
  }

  /** A table has its old rows and one for each of the given items, nothing else. */
  ghost predicate TableGrown<R(!new)>(before: map<ObjectId, R>, after: map<ObjectId, R>, items: Items, ids: set<ItemId>) {
    && (forall o | o in before :: o in after && after[o] == before[o])
    && (forall o | o in after && o !in before :: exists id | id in ids :: id in items && items[id].created == Some(o))
  }

  ghost predicate StreamOutcome(w: World, s: State, s': State) {
    var stages, processes := SelectedItems(s.items, ValueStreamStage), SelectedItems(s.items, ProcessAnalysis);
    && s'.domain.metrics == s.domain.metrics
    && (forall id | id in stages :: StageMade(w, s, s', id))
    && (forall id | id in processes :: ProcessMade(w, s, s', id))
    && (forall a, b | a in stages + processes && b in stages + processes && a in s'.items && b in s'.items
          && s'.items[a].created == s'.items[b].created :: a == b)
    && TableGrown(s.domain.stages, s'.domain.stages, s'.items, stages)
    && TableGrown(s.domain.processes, s'.domain.processes, s'.items, processes)
  }

  lemma RowsAddedGrow<R(!new)>(before: map<ObjectId, R>, after: map<ObjectId, R>, items: Items, ids: set<ItemId>, rows: map<ItemId, R>)
    requires RowsAdded(before, after, CreatedIds(items, ids), rows)
    ensures TableGrown(before, after, items, ids)
  {
  }

  lemma RowOfItem<R>(before: map<ObjectId, R>, after: map<ObjectId, R>, created: map<ItemId, ObjectId>, rows: map<ItemId, R>, id: ItemId)
    requires RowsAdded(before, after, created, rows) && id in rows
    ensures id in created && created[id] in after && after[created[id]] == rows[id]
  {
    assert created[id] in created.Values;
  }

  lemma FreshId(w: World, s: State, t: State, ids: set<ItemId>, id: ItemId)
    requires AdoptedFresh(w, s, t, ids) && id in ids && Allocated(s.domain)
    ensures id in s.items && id in t.items && t.items[id].created.Some? && CreatedIds(t.items, ids)[id] == t.items[id].created.value
    ensures t.items[id].created.value !in s.domain.stages && t.items[id].created.value !in s.domain.processes
    ensures s.domain.nextId <= t.items[id].created.value < t.domain.nextId
  {
    hide AdoptedItem;
  }

  lemma StagesMade(w: World, s: State, mid: State, ids: set<ItemId>, id: ItemId)
    requires StagesCreated(w, s, mid, ids) && id in ids && Allocated(s.domain)
    ensures StageMade(w, s, mid, id)
  {
    hide AdoptedFresh;
    hide RowsAdded;
    hide Allocated;
    hide StageItemReady;
    hide StageRowOf;
    var rows := StageRowsOf(w, s.items, ids);
    assert rows.Keys == ids;
    FreshId(w, s, mid, ids, id);
    RowOfItem(s.domain.stages, mid.domain.stages, CreatedIds(mid.items, ids), rows, id);
    hide CreatedIds;
  }

  lemma StageTable(w: World, s: State, mid: State, ids: set<ItemId>)
    requires StagesCreated(w, s, mid, ids)
    ensures TableGrown(s.domain.stages, mid.domain.stages, mid.items, ids)
  {
    assert StageRowsOf(w, s.items, ids).Keys == ids;
    RowsAddedGrow(s.domain.stages, mid.domain.stages, mid.items, ids, StageRowsOf(w, s.items, ids));
    hide TableGrown;
    hide RowsAdded;
    hide AdoptedFresh;
    hide StageItemReady;
  }

  lemma ProcessTable(w: World, h: Header, mid: State, s': State, ids: set<ItemId>)
    requires ProcessesCreated(w, h, mid, s', ids)
    ensures TableGrown(mid.domain.processes, s'.domain.processes, s'.items, ids)
  {
    assert ProcessRowsOf(w, h, mid, ids).Keys == ids;
    RowsAddedGrow(mid.domain.processes, s'.domain.processes, s'.items, ids, ProcessRowsOf(w, h, mid, ids));
    hide TableGrown;
    hide RowsAdded;
    hide AdoptedFresh;
    hide ProcessItemReady;
    hide ResolveStage;
  }

  lemma ProcessRowMade(w: World, h: Header, mid: State, s': State, ids: set<ItemId>, id: ItemId)
    requires ProcessesCreated(w, h, mid, s', ids) && id in ids && Allocated(mid.domain)
    ensures id in mid.items && id in s'.items && s'.items[id].created.Some?
    ensures ProcessItemReady(w, h, mid.items[id]) && ResolveStage(mid, mid.items[id]).Some?
    ensures var o := s'.items[id].created.value;
            o !in mid.domain.processes && o in s'.domain.processes && s'.domain.processes[o] == ProcessRowOf(w, h, mid, id)
  {
    hide AdoptedFresh;
    hide RowsAdded;
    hide Allocated;
    hide ProcessItemReady;
    hide ResolveStage;
    hide ProcessRowOf;
    var rows := ProcessRowsOf(w, h, mid, ids);
    assert rows.Keys == ids;
    FreshId(w, mid, s', ids, id);
    RowOfItem(mid.domain.processes, s'.domain.processes, CreatedIds(s'.items, ids), rows, id);
    hide CreatedIds;
  }

  lemma ProcessRowTells(w: World, h: Header, mid: State, id: ItemId)
    requires id in mid.items && ProcessItemReady(w, h, mid.items[id]) && ResolveStage(mid, mid.items[id]).Some?
    ensures var row := ProcessRowOf(w, h, mid, id);
            && row.item == id && row.analyzedBy == mid.items[id].confirmedBy && Some(row.stage) == ResolveStage(mid, mid.items[id])
            && HasConfirmedFields(w, mid.items[id], row.fields)
  {
    hide ResolveStage;
    hide ProcessValues;
    hide ConfirmedFields;
    hide ValidProcessValues;
    hide ValidLocalKey;
  }

  /** After the stage loop, a reference resolves to the existing stage it names, or to the new one. */
  lemma AttachedAfterStages(w: World, order: seq<ItemId>, s: State, mid: State, stages: set<ItemId>, i: Item)
    requires IsOrder(order, s.items) && GraphAccepted(order, s) && Allocated(s.domain) && ReferenceWithin(s.domain, i)
    requires StagesCreated(w, s, mid, stages) && stages == SelectedItems(s.items, ValueStreamStage)
    requires ResolveStage(mid, i).Some?
    ensures AttachedTo(s, mid, i, ResolveStage(mid, i).value)
    ensures i.dependsOn.Some? && i.stageReference.value.Local? ==> i.dependsOn.value in stages
  {
    var rows := StageRowsOf(w, s.items, stages);
    assert rows.Keys == stages;
    ResolveAfterStages(w, order, s, mid, rows, i);
    if i.stageReference.value.Local? {
      hide ValidLocalKey;
      hide StagesAdded;
      hide StagesCreated;
      LocalResolvesAfterStages(w, order, s, mid, rows, i);
      StagesAdopted(w, s, mid, stages);
      hide GraphAccepted;
      FreshId(w, s, mid, stages, i.dependsOn.value);
      hide AdoptedFresh;
      hide Allocated;
      hide ResolveStage;
      hide StageRowsOf;
      hide SelectedItems;
    }
  }

  lemma StagePersists(w: World, h: Header, s: State, mid: State, s': State, processes: set<ItemId>, id: ItemId)
    requires StageMade(w, s, mid, id) && ProcessesCreated(w, h, mid, s', processes) && id !in processes
    ensures StageMade(w, s, s', id) && s'.items[id] == mid.items[id]
  {
    ProcessesAdopted(w, h, mid, s', processes);
    hide ProcessesCreated;
    OnlyAdoptedChange(w, mid, s', processes, id);
    hide AdoptedFresh;
    hide StageItemReady;
    hide StageRowOf;
  }

  lemma ProcessMadeByGroup(w: World, h: Header, order: seq<ItemId>, s: State, mid: State, s': State, id: ItemId)
    requires Constraints(order, s.items, s.domain) && GraphAccepted(order, s) && Allocated(mid.domain)
    requires StagesCreated(w, s, mid, SelectedItems(s.items, ValueStreamStage))
    requires ProcessesCreated(w, h, mid, s', SelectedItems(s.items, ProcessAnalysis)) && id in SelectedItems(s.items, ProcessAnalysis)
    ensures ProcessMade(w, s, s', id)
  {
    hide StagesCreated;
    hide ProcessesCreated;
    hide ResolveStage;
    hide ProcessItemReady;
    hide ProcessRowOf;
    hide GraphAccepted;
    hide AdoptedFresh;
    hide Allocated;
    hide HasConfirmedFields;
    var stages, processes := SelectedItems(s.items, ValueStreamStage), SelectedItems(s.items, ProcessAnalysis);
    SelectedIs(s.items, id);
    StagesAdopted(w, s, mid, stages);
    OnlyAdoptedChange(w, s, mid, stages, id);
    ProcessRowMade(w, h, mid, s', processes, id);
    ProcessRowTells(w, h, mid, id);
    AttachedAfterStages(w, order, s, mid, stages, s.items[id]);
    hide Constraints;
    if s.items[id].stageReference.value.Local? {
      var d := s.items[id].dependsOn.value;
      SelectedIs(s.items, d);
      ProcessesAdopted(w, h, mid, s', processes);
      OnlyAdoptedChange(w, mid, s', processes, d);
    }
    hide SelectedItems;
  }

  lemma AllocatedAfterStages(w: World, s: State, mid: State, ids: set<ItemId>)
    requires StagesCreated(w, s, mid, ids) && Allocated(s.domain)
    ensures Allocated(mid.domain)
  {
    hide StageItemReady;
    StageTable(w, s, mid, ids);
    StagesAdopted(w, s, mid, ids);
    hide StagesCreated;
    forall o | o in mid.domain.stages ensures o < mid.domain.nextId {
      if o !in s.domain.stages {
        var id :| id in ids && id in mid.items && mid.items[id].created == Some(o);
      }
    }
  }

  /** Where the id of a created object lies tells in which of the two loops it was made. */
  lemma CreatedRange(w: World, s: State, mid: State, s': State, stages: set<ItemId>, processes: set<ItemId>, id: ItemId)
    requires AdoptedFresh(w, s, mid, stages) && AdoptedFresh(w, mid, s', processes) && stages !! processes
    requires id in stages + processes
    ensures id in s'.items && s'.items[id].created.Some?
    ensures id in stages ==> s'.items[id].created.value < mid.domain.nextId && s'.items[id] == mid.items[id]
    ensures id in processes ==> mid.domain.nextId <= s'.items[id].created.value
  {
    hide AdoptedItem;
  }

  lemma CreatedDistinct(w: World, s: State, mid: State, s': State, stages: set<ItemId>, processes: set<ItemId>, a: ItemId, b: ItemId)
    requires AdoptedFresh(w, s, mid, stages) && AdoptedFresh(w, mid, s', processes) && stages !! processes
    requires a in stages + processes && b in stages + processes && a in s'.items && b in s'.items
    requires s'.items[a].created == s'.items[b].created
    ensures a == b
  {
    CreatedRange(w, s, mid, s', stages, processes, a);
    CreatedRange(w, s, mid, s', stages, processes, b);
    hide AdoptedItem;
  }

  lemma TablesGrow(w: World, h: Header, s: State, mid: State, s': State, stages: set<ItemId>, processes: set<ItemId>)
    requires StagesCreated(w, s, mid, stages) && ProcessesCreated(w, h, mid, s', processes) && stages !! processes
    ensures TableGrown(s.domain.stages, s'.domain.stages, s'.items, stages)
    ensures TableGrown(s.domain.processes, s'.domain.processes, s'.items, processes)
    ensures s'.domain.metrics == s.domain.metrics
  {
    StagesAdopted(w, s, mid, stages);
    ProcessesAdopted(w, h, mid, s', processes);
    StageTable(w, s, mid, stages);
    ProcessTable(w, h, mid, s', processes);
    hide StagesCreated;
    hide ProcessesCreated;
    forall id | id in stages ensures id in s'.items && s'.items[id] == mid.items[id] {
      OnlyAdoptedChange(w, mid, s', processes, id);
    }
    hide AdoptedFresh;
  }

  lemma StreamGroupOutcome(w: World, h: Header, order: seq<ItemId>, s: State, mid: State, s': State)
    requires Constraints(order, s.items, s.domain) && GraphAccepted(order, s) && h.targetType == ValueStream
    requires GroupExecuted(w, h, s, mid, s')
    ensures StreamOutcome(w, s, s')
  {
    hide StagesCreated;
    hide ProcessesCreated;
    hide GraphAccepted;
    hide AdoptedFresh;
    hide StageMade;
    hide ProcessMade;
    hide TableGrown;
    var stages, processes := SelectedItems(s.items, ValueStreamStage), SelectedItems(s.items, ProcessAnalysis);
    assert stages !! processes;
    hide SelectedItems;
    AllocatedAfterStages(w, s, mid, stages);
    TablesGrow(w, h, s, mid, s', stages, processes);
    StagesAdopted(w, s, mid, stages);
    ProcessesAdopted(w, h, mid, s', processes);
    forall id | id in stages ensures StageMade(w, s, s', id) {
      StagesMade(w, s, mid, stages, id);
      StagePersists(w, h, s, mid, s', processes, id);
    }
    forall id | id in processes ensures ProcessMade(w, s, s', id) {
      ProcessMadeByGroup(w, h, order, s, mid, s', id);
    }
    forall a, b | a in stages + processes && b in stages + processes && a in s'.items && b in s'.items
                  && s'.items[a].created == s'.items[b].created
      ensures a == b
    {
      CreatedDistinct(w, s, mid, s', stages, processes, a, b);
    }
    hide Constraints;
  }

  /** The seven metric fields hold what the form made of the merged values; nothing else changed. */
  ghost predicate MetricOutcome(w: World, s: State, s': State) {
    var ids := SelectedItems(s.items, MetricSet);
    && ids <= s.items.Keys && PathsUnique(s.items, ids)
    && s'.domain == s.domain.(metrics := s'.domain.metrics)
    && var form := w.metricForm(EffectiveMetrics(s.items, s.domain.metrics, ids));
       form.Some? && s'.domain.metrics == SaveMetrics(s.domain.metrics, form.value)
  }

  lemma MetricGroupOutcome(w: World, h: Header, s: State, mid: State, s': State)
    requires DomainAccepts(w, h, s.items, s.domain) && h.targetType == UseCase && GroupExecuted(w, h, s, mid, s')
    ensures MetricOutcome(w, s, s')
  {
    hide EffectiveMetrics;
    hide SaveMetrics;
    hide MetricItemReady;
    hide KindsAllowed;
    hide PathsUnique;
  }

  /** A successful execution: every item resolved, every object created as confirmed, nothing else touched. */
  ghost predicate Outcome(w: World, h: Header, s: State, s': State) {
    && ItemsResolved(w, s.items, s'.items)
    && (match h.targetType
        case UseCase => MetricOutcome(w, s, s')
        case ValueStream => StreamOutcome(w, s, s'))
  }

  lemma ExecutionOutcome(w: World, h: Header, order: seq<ItemId>, s: State, actor: Actor, key: IdempotencyKey, s': State)
    requires Constraints(order, s.items, s.domain)
    requires CanExecute(w, h, order, s, actor, key) && Executed(w, h, s, actor, s')
    ensures Outcome(w, h, s, s')
  {
    hide GraphAccepted;
    hide DomainAccepts;
    hide GroupExecuted;
    hide ResultFits;
    hide ItemsResolved;
    hide StreamOutcome;
    hide MetricOutcome;
    hide Constraints;
    hide KeyHolds;
    ConstraintsOrder(order, s.items, s.domain);
    ExecutionResolvesItems(w, h, order, s, actor, key, s');
    var mid :| ExecutedVia(w, h, s, actor, mid, s');
    var done := State(s.batch, s'.items, s'.domain, s.audits);
    if h.targetType == ValueStream {
      StreamGroupOutcome(w, h, order, s, mid, done);
      StreamOutcomeReads(w, s, done, s');
    } else {
      MetricGroupOutcome(w, h, s, mid, done);
      MetricOutcomeReads(w, s, done, s');
    }
  }

  lemma StreamOutcomeReads(w: World, s: State, t: State, s': State)
    requires StreamOutcome(w, s, t) && t.items == s'.items && t.domain == s'.domain
    ensures StreamOutcome(w, s, s')
  {
    hide TableGrown;
    hide StageItemReady;
    hide StageRowOf;
    hide AttachedTo;
    hide HasConfirmedFields;
    forall id | ProcessMade(w, s, t, id) ensures ProcessMade(w, s, s', id) {
      AttachmentReads(s, t, s', s.items[id], t.domain.processes[t.items[id].created.value].stage);
    }
    forall id | StageMade(w, s, t, id) ensures StageMade(w, s, s', id) {
    }
    hide StageMade;
    hide ProcessMade;
  }

  lemma AttachmentReads(s: State, t: State, s': State, i: Item, stage: ObjectId)
    requires t.items == s'.items
    ensures AttachedTo(s, t, i, stage) == AttachedTo(s, s', i, stage)
  {
  }

  lemma MetricOutcomeReads(w: World, s: State, t: State, s': State)
    requires MetricOutcome(w, s, t) && t.domain == s'.domain
    ensures MetricOutcome(w, s, s')
  {
  }

  // ---- the database constraints

  lemma AllocatedAfterProcesses(w: World, h: Header, mid: State, s': State, ids: set<ItemId>)
    requires ProcessesCreated(w, h, mid, s', ids) && Allocated(mid.domain)
    ensures Allocated(s'.domain)
  {
    hide ProcessItemReady;
    hide ResolveStage;
    ProcessTable(w, h, mid, s', ids);
    ProcessesAdopted(w, h, mid, s', ids);
    hide ProcessesCreated;
    forall o | o in s'.domain.processes ensures o < s'.domain.nextId {
      if o !in mid.domain.processes {
        var id :| id in ids && id in s'.items && s'.items[id].created == Some(o);
      }
    }
  }

  lemma GroupKeepsConstraints(w: World, h: Header, order: seq<ItemId>, s: State, mid: State, s': State)
    requires Constraints(order, s.items, s.domain) && GroupExecuted(w, h, s, mid, s')
    ensures Constraints(order, s'.items, s'.domain)
  {
    hide StagesCreated;
    hide ProcessesCreated;
    hide SelectedItems;
    hide AdoptedFresh;
    hide EffectiveMetrics;
    hide SaveMetrics;
    hide AdoptedItem;
    if h.targetType == ValueStream {
      var stages, processes := SelectedItems(s.items, ValueStreamStage), SelectedItems(s.items, ProcessAnalysis);
      StagesAdopted(w, s, mid, stages);
      AllocatedAfterStages(w, s, mid, stages);
      AdoptionKeepsConstraints(w, order, s, mid, stages);
      ProcessesAdopted(w, h, mid, s', processes);
      AllocatedAfterProcesses(w, h, mid, s', processes);
      AdoptionKeepsConstraints(w, order, mid, s', processes);
    } else {
      MarkingKeepsConstraints(w, order, s, s', SelectedItems(s.items, MetricSet));
    }
    hide Constraints;
  }

  lemma ExecutionKeepsConstraints(w: World, h: Header, order: seq<ItemId>, s: State, actor: Actor, s': State)
    requires Constraints(order, s.items, s.domain) && Executed(w, h, s, actor, s')
    ensures Constraints(order, s'.items, s'.domain)
  {
    hide Constraints;
    hide GroupExecuted;
    hide ResultFits;
    var mid :| ExecutedVia(w, h, s, actor, mid, s');
    GroupKeepsConstraints(w, h, order, s, mid, State(s.batch, s'.items, s'.domain, s.audits));
  }

  // ---- the sequences of the stream

  ghost predicate SequencesUnique(stages: map<ObjectId, StageRow>) {
    forall a, b | a in stages && b in stages && stages[a].sequence == stages[b].sequence :: a == b
  }

  function Sequences(stages: map<ObjectId, StageRow>): set<int> {
    set o | o in stages :: stages[o].sequence
  }

  function BatchSequences(items: Items): set<int> {
    set id | id in SelectedItems(items, ValueStreamStage) :: SequenceOf(items[id])
  }

  lemma MadeSequence(w: World, s: State, s': State, id: ItemId)
    requires StageMade(w, s, s', id)
    ensures s'.domain.stages[s'.items[id].created.value].sequence == SequenceOf(s.items[id])
  {
    hide SequenceOf;
    hide StageValues;
    hide ConfirmedFields;
  }

  /** The stage item behind a row that was not there before. */
  lemma NewStage(w: World, s: State, s': State, o: ObjectId) returns (id: ItemId)
    requires StreamOutcome(w, s, s') && o in s'.domain.stages && o !in s.domain.stages
    ensures id in SelectedItems(s.items, ValueStreamStage) && id in s.items && id in s'.items && s'.items[id].created == Some(o)
    ensures s'.domain.stages[o].sequence == SequenceOf(s.items[id])
  {
    hide SelectedItems;
    hide ProcessMade;
    id :| id in SelectedItems(s.items, ValueStreamStage) && id in s'.items && s'.items[id].created == Some(o);
    MadeSequence(w, s, s', id);
  }

  lemma OldStages(w: World, s: State, s': State)
    requires StreamOutcome(w, s, s')
    ensures forall o | o in s.domain.stages :: o in s'.domain.stages && s'.domain.stages[o] == s.domain.stages[o]
  {
    hide StageMade;
    hide ProcessMade;
    hide SelectedItems;
  }

  lemma NewSequencesAreBatch(w: World, s: State, s': State)
    requires StreamOutcome(w, s, s')
    ensures Sequences(s'.domain.stages) == Sequences(s.domain.stages) + BatchSequences(s.items)
  {
    hide SelectedItems;
    hide SequenceOf;
    hide ProcessMade;
    OldStages(w, s, s');
    var prior, all, added := Sequences(s.domain.stages), Sequences(s'.domain.stages), BatchSequences(s.items);
    forall q | q in all ensures q in prior + added {
      var o :| o in s'.domain.stages && s'.domain.stages[o].sequence == q;
      if o !in s.domain.stages {
        var id := NewStage(w, s, s', o);
      }
    }
    forall q | q in added ensures q in all {
      var id :| id in SelectedItems(s.items, ValueStreamStage) && SequenceOf(s.items[id]) == q;
      assert StageMade(w, s, s', id);
      MadeSequence(w, s, s', id);
    }
    forall q | q in prior ensures q in all {
      var o :| o in s.domain.stages && s.domain.stages[o].sequence == q;
      assert s'.domain.stages[o].sequence == q;
    }
    hide StreamOutcome;
  }

  lemma SameSequenceSameStage(w: World, s: State, s': State, a: ObjectId, b: ObjectId)
    requires StreamOutcome(w, s, s') && SequencesUnique(s.domain.stages)
    requires StagesReady(w, s.items, s.domain, SelectedItems(s.items, ValueStreamStage))
    requires a in s'.domain.stages && b in s'.domain.stages && s'.domain.stages[a].sequence == s'.domain.stages[b].sequence
    ensures a == b
  {
    hide SelectedItems;
    hide SequenceOf;
    hide StageItemReady;
    OldStages(w, s, s');
    if a !in s.domain.stages && b !in s.domain.stages {
      var i := NewStage(w, s, s', a);
      var j := NewStage(w, s, s', b);
      hide StreamOutcome;
    } else if a !in s.domain.stages {
      var i := NewStage(w, s, s', a);
      hide StreamOutcome;
    } else if b !in s.domain.stages {
      var j := NewStage(w, s, s', b);
      hide StreamOutcome;
    }
    hide StreamOutcome;
  }

  /** Distinct stage sequences stay distinct, and the batch's own are exactly what is added to them. */
  lemma StageSequencesStayUnique(w: World, s: State, s': State)
    requires StreamOutcome(w, s, s') && SequencesUnique(s.domain.stages)
    requires StagesReady(w, s.items, s.domain, SelectedItems(s.items, ValueStreamStage))
    ensures SequencesUnique(s'.domain.stages)
    ensures Sequences(s'.domain.stages) == Sequences(s.domain.stages) + BatchSequences(s.items)
    ensures Sequences(s.domain.stages) !! BatchSequences(s.items)
    ensures |BatchSequences(s.items)| == |SelectedItems(s.items, ValueStreamStage)|
  {
    assert SelectedItems(s.items, ValueStreamStage) <= s.items.Keys;
    hide StreamOutcome;
    hide SelectedItems;
    hide StageItemReady;
    hide SequenceOf;
    NewSequencesAreBatch(w, s, s');
    forall a, b | a in s'.domain.stages && b in s'.domain.stages
                  && s'.domain.stages[a].sequence == s'.domain.stages[b].sequence
      ensures a == b
    {
      SameSequenceSameStage(w, s, s', a, b);
    }
    BatchDisjoint(w, s);
    CountSequences(s.items, SelectedItems(s.items, ValueStreamStage));
  }

  lemma BatchDisjoint(w: World, s: State)
    requires StagesReady(w, s.items, s.domain, SelectedItems(s.items, ValueStreamStage))
    ensures Sequences(s.domain.stages) !! BatchSequences(s.items)
  {
    assert SelectedItems(s.items, ValueStreamStage) <= s.items.Keys;
    hide StageItemReady;
    hide SelectedItems;
    hide SequenceOf;
    hide SequencesDistinct;
    forall id, o | id in SelectedItems(s.items, ValueStreamStage) && o in s.domain.stages
      ensures s.domain.stages[o].sequence != SequenceOf(s.items[id])
    {
      assert !Taken(s.domain.stages, SequenceOf(s.items[id]));
    }
  }

  lemma {:induction false} CountSequences(items: Items, ids: set<ItemId>)
    requires ids <= items.Keys && SequencesDistinct(items, ids)
    ensures |set id | id in ids :: SequenceOf(items[id])| == |ids|
  {
    hide SequenceOf;
    if ids != {} {
      var id :| id in ids;
      var rest := ids - {id};
      CountSequences(items, rest);
      var all, fewer := set i | i in ids :: SequenceOf(items[i]), set i | i in rest :: SequenceOf(items[i]);
      assert SequenceOf(items[id]) !in fewer;
      assert all == fewer + {SequenceOf(items[id])};
    }
  }

  // ---- the whole call

  /** What a failed or refused call leaves behind. */
  ghost predicate NothingWritten(s: State, s': State) {
    s'.items == s.items && s'.domain == s.domain
  }

  /**
   * All or nothing. A call either returns with every confirmed item adopted and every object created
   * as confirmed, or leaves items and domain as they were: untouched altogether when it was refused
   * or replayed, in FAILED, CONFLICT or STALE with one more attempt and one audit when it failed.
   */
  lemma CommitIsAllOrNothing(pre: World, exec: World, post: World, h: Header, order: seq<ItemId>, s: State, actor: Actor,
      key: IdempotencyKey, o: CommitOutcome, s': State)
    requires Constraints(order, s.items, s.domain) && Commits(pre, exec, post, h, order, s, actor, key, o, s')
    ensures match o
            case Done(attempt, result) =>
              Outcome(exec, h, s, s') && s'.batch.status == Committed && s'.batch.result == result
              && attempt == s.batch.attempts + 1 == s'.batch.attempts
            case Replayed(attempt, result) =>
              s' == s && s.batch.status == Committed && s.batch.result == result && s.batch.attempts == attempt
            case RefusedBeforeReservation => s' == s
            case FailedWith(e) =>
              NothingWritten(s, s')
              && s'.batch.status == (if e == DomainConflict then BatchStatus.Conflict
                                     else if e in {TargetMissing, SessionStale, AnalysisStale} then BatchStatus.Stale
                                     else BatchStatus.Failed)
              && s'.batch.attempts == s.batch.attempts + 1 && |s'.audits| == |s.audits| + 1
    ensures var admitted := key == s.batch.key && key == KeyOf(h, s.batch.graph) && pre.targetExists && pre.canEdit(actor);
            && (o.RefusedBeforeReservation? <==> !admitted || s.batch.status in {Processing, BatchRejected, BatchStatus.Conflict, BatchStatus.Stale})
            && (o.Replayed? <==> admitted && s.batch.status == Committed)
            && (o.Done? || o.FailedWith? <==> admitted && s.batch.status in {BatchStatus.Open, BatchStatus.Failed})
  {
    hide Constraints;
    hide Outcome;
    hide CanExecute;
    hide Executed;
    hide Reports;
    hide KeyOf;
    var reserved := s.(batch := ReserveBatch(h, s.batch, actor, key));
    if o.Done? {
      ConstraintsOrder(order, s.items, s.domain);
      ExecutionOutcome(exec, h, order, reserved, actor, key, s');
      OutcomeReads(exec, h, s, reserved, s');
      ExecutedRow(exec, h, reserved, actor, s');
    }
  }

  lemma ExecutedRow(w: World, h: Header, s: State, actor: Actor, s': State)
    requires Executed(w, h, s, actor, s')
    ensures s'.batch == CommittedBatch(w, s.batch, s'.batch.result)
  {
    hide GroupExecuted;
    hide ResultFits;
  }

  lemma OutcomeReads(w: World, h: Header, s: State, t: State, s': State)
    requires Outcome(w, h, t, s') && t.items == s.items && t.domain == s.domain
    ensures Outcome(w, h, s, s')
  {
    if h.targetType == ValueStream {
      StreamOutcomeStarts(w, s, t, s');
    }
    hide ItemsResolved;
    hide StreamOutcome;
    hide EffectiveMetrics;
  }

  lemma StreamOutcomeStarts(w: World, s: State, t: State, s': State)
    requires StreamOutcome(w, t, s') && t.items == s.items && t.domain == s.domain
    ensures StreamOutcome(w, s, s')
  {
    hide TableGrown;
    hide StageItemReady;
    hide StageRowOf;
    hide HasConfirmedFields;
    forall id | ProcessMade(w, t, s', id) ensures ProcessMade(w, s, s', id) {
    }
    forall id | StageMade(w, t, s', id) ensures StageMade(w, s, s', id) {
    }
    hide StageMade;
    hide ProcessMade;
  }

  /**
   * After a failure the same key can be tried again only from FAILED: in CONFLICT and STALE a batch
   * that was ready no longer is, and no commit reserves it, until a further decision seals it anew.
   */
  lemma FailureLeavesReady(w: World, h: Header, s: State, actor: Actor, key: IdempotencyKey, e: CommitError)
    requires Ready(s) && KeyHolds(h, s.batch, key)
    ensures var failed := RecordFailure(w, s.(batch := ReserveBatch(h, s.batch, actor, key)), actor, e);
            && (Ready(failed) <==> e !in {DomainConflict, TargetMissing, SessionStale, AnalysisStale})
            && (ReservationOf(h, failed.batch, key).Reserved? <==> e !in {DomainConflict, TargetMissing, SessionStale, AnalysisStale})
  {
    hide ItemReady;
    var failed := RecordFailure(w, s.(batch := ReserveBatch(h, s.batch, actor, key)), actor, e);
    assert failed.items == s.items;
  }

  /** The same about an execution: sequences that were distinct stay distinct, and only the batch's are new. */
  lemma ExecutionKeepsSequences(w: World, h: Header, order: seq<ItemId>, s: State, actor: Actor, key: IdempotencyKey, s': State)
    requires Constraints(order, s.items, s.domain) && h.targetType == ValueStream && SequencesUnique(s.domain.stages)
    requires CanExecute(w, h, order, s, actor, key) && Executed(w, h, s, actor, s')
    ensures SequencesUnique(s'.domain.stages)
    ensures Sequences(s'.domain.stages) == Sequences(s.domain.stages) + BatchSequences(s.items)
    ensures Sequences(s.domain.stages) !! BatchSequences(s.items)
  {
    ExecutionOutcome(w, h, order, s, actor, key, s');
    hide Executed;
    hide GraphAccepted;
    hide Constraints;
    hide StreamOutcome;
    hide StagesReady;
    hide ItemsResolved;
    hide SelectedItems;
    hide ProcessItemReady;
    hide StageWillResolve;
    hide KeyHolds;
    hide Sequences;
    hide BatchSequences;
    StageSequencesStayUnique(w, s, s');
  }

  // ---- reservation and release

  /** A granted reservation counts one attempt and shuts everybody out, whatever key they bring. */
  lemma ReservationExcludes(h: Header, b: Batch, actor: Actor, key: IdempotencyKey)
    ensures ReservationOf(h, b, key).Reserved? <==> KeyHolds(h, b, key) && (b.status.Open? || b.status.Failed?)
    ensures ReservationOf(h, b, key).Reserved? ==>
              var held := ReserveBatch(h, b, actor, key);
              && held.attempts == b.attempts + 1 && ReservationOf(h, b, key).attempt == held.attempts
              && held.key == b.key && held.graph == b.graph && held.result == NoResult
              && !Editable(held.status) && forall other :: ReservationOf(h, held, other) == Refused
    ensures !ReservationOf(h, b, key).Reserved? ==> ReserveBatch(h, b, actor, key) == b
  {
  }

  /** A recorded failure releases the batch for review with its key and attempts, and notes no commit. */
  lemma FailureReleases(w: World, s: State, actor: Actor, e: CommitError)
    requires s.batch.status != Committed
    ensures var failed := RecordFailure(w, s, actor, e);
            && Editable(failed.batch.status) && failed.batch.error == Some(e) && failed.batch.processingBy == None
            && (failed.batch.status == BatchStatus.Conflict <==> e == DomainConflict)
            && (failed.batch.status == BatchStatus.Stale <==> e in {TargetMissing, SessionStale, AnalysisStale})
            && (failed.batch.status == BatchStatus.Failed <==> e !in {DomainConflict, TargetMissing, SessionStale, AnalysisStale})
            && failed.batch.key == s.batch.key && failed.batch.graph == s.batch.graph && failed.batch.attempts == s.batch.attempts
            && failed.items == s.items && failed.domain == s.domain
            && failed.audits[..|failed.audits| - 1] == s.audits && failed.audits[|s.audits|].event != CommittedEvent
            && (failed.audits[|s.audits|].event == ConflictEvent <==> e == DomainConflict)
  {
  }

  /**
   * Which refused executions leave a key that can be reserved again, told from the world they met: those
   * whose target was there, whose captures were current or had vanished, and which found no clash.
   */
  lemma RefusalLeavesKey(w: World, post: World, h: Header, order: seq<ItemId>, s: State, actor: Actor, key: IdempotencyKey, e: CommitError)
    requires IsOrder(order, s.items) && KeyHolds(h, s.batch, key)
    requires s.batch.status == Processing && s.batch.processingBy == Some(actor)
    requires !CanExecute(w, h, order, s, actor, key) && Reports(w, h, order, s, actor, key, e)
    ensures var failed := RecordFailure(post, s, actor, e);
            var moved := w.canEdit(actor) && !w.captureVanished && !(w.sessionCurrent && w.analysisCurrent);
            var clash := w.targetExists && w.canEdit(actor) && w.sessionCurrent && w.analysisCurrent
                         && GraphAccepted(order, s) && DomainClash(h, order, s.items, s.domain);
            && (failed.batch.status == BatchStatus.Stale <==> !w.targetExists || moved)
            && (failed.batch.status == BatchStatus.Conflict <==> clash)
            && (ReservationOf(h, failed.batch, key).Reserved? <==> w.targetExists && !moved && !clash)
  {
    hide DomainAccepts;
    hide DomainClash;
    hide GraphAccepted;
  }
}
