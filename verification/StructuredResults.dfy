/** What the stored result of a commit tells about the rows it left. */
module StructuredResults {
  import opened Options
  import opened StructuredModel
  import opened StructuredExecution
  import opened StructuredSteps
  import opened StructuredReviewProofs
  import opened StructuredOutcome
  import opened StructuredValues

  function MetricNames(): set<string> {
    {"use_case.metric.name", "use_case.metric.type", "use_case.metric.direction", "use_case.metric.unit",
     "use_case.metric.baseline", "use_case.metric.target", "use_case.metric.measurement_method"}
  }

  function At(fields: Fields, path: string): Cell {
    if path in fields then fields[path] else Nothing
  }

  /** The values the seven fields have now, where each came from, and which are new. */
  ghost predicate TellsMetrics(s: State, s': State, r: ResultSnapshot) {
    && r.MetricResult? && r.attempt == s.batch.attempts
    && r.effective.Keys == MetricNames() && r.sources.Keys == MetricNames()
    && (forall p | p in MetricNames() :: r.effective[p] == At(s'.domain.metrics, p))
    && (forall p :: p in r.changed <==> p in MetricNames() && At(s.domain.metrics, p) != At(s'.domain.metrics, p))
    && (forall id | id in s.items && Confirmable(s.items[id], MetricSet) ::
          s.items[id].targetPath in MetricNames() && r.sources[s.items[id].targetPath] == s.items[id].decision)
    && (forall p | p in MetricNames() && !BroughtByItem(s.items, p) :: r.sources[p] == CurrentDatabase)
  }

  /** Under the local key of each item, the object that was created for it, and the stage of each process. */
  ghost predicate TellsStream(s: State, s': State, r: ResultSnapshot) {
    && r.StreamResult? && r.attempt == s.batch.attempts
    && (forall id | id in s.items && Confirmable(s.items[id], ValueStreamStage) ::
          id in s'.items && s.items[id].localKey in r.stages && s'.items[id].created == Some(r.stages[s.items[id].localKey]))
    && (forall id | id in s.items && Confirmable(s.items[id], ProcessAnalysis) ::
          && id in s'.items && s.items[id].localKey in r.processes
          && var told := r.processes[s.items[id].localKey];
             s'.items[id].created == Some(told.process) && told.process in s'.domain.processes
             && s'.domain.processes[told.process].stage == told.stage)
    && (forall k | k in r.stages :: exists id :: id in s.items && Confirmable(s.items[id], ValueStreamStage) && s.items[id].localKey == k)
    && (forall k | k in r.processes :: exists id :: id in s.items && Confirmable(s.items[id], ProcessAnalysis) && s.items[id].localKey == k)
  }

  lemma NamesAre()
    ensures forall p :: p in MetricNames() <==> p in MetricPaths()
  {
  }

  lemma SourceAt(w: World, h: Header, order: seq<ItemId>, s: State, id: ItemId)
    requires IsOrder(order, s.items) && GraphAccepted(order, s) && DomainAccepts(w, h, s.items, s.domain) && h.targetType == UseCase
    requires id in s.items && Confirmable(s.items[id], MetricSet)
    ensures SelectedItems(s.items, MetricSet) <= s.items.Keys && s.items[id].targetPath in MetricPaths()
    ensures MetricSource(s.items, SelectedItems(s.items, MetricSet), s.items[id].targetPath) == s.items[id].decision
  {
    var ids := SelectedItems(s.items, MetricSet);
    SelectedKnown(s.items, MetricSet);
    SelectedAreConfirmable(w, h, order, s, id);
    ConfirmableKind(s.items[id]);
    MetricGroupReady(w, h, s);
    hide *;
    MetricReadyAt(w, s.items, s.domain, ids, id);
    MetricItemIs(s.items, ids, id);
    SourceOf(s.items, ids, id);
  }

  lemma SourceOf(items: Items, ids: set<ItemId>, id: ItemId)
    requires ids <= items.Keys && id in ids && MetricItem(items, ids, items[id].targetPath) == Some(id)
    ensures MetricSource(items, ids, items[id].targetPath) == items[id].decision
  {
    hide MetricItem;
  }

  lemma SourceKept(items: Items, ids: set<ItemId>, path: string)
    requires ids == SelectedItems(items, MetricSet) && ids <= items.Keys && !BroughtByItem(items, path)
    ensures MetricSource(items, ids, path) == CurrentDatabase
  {
    hide MetricValue;
    assert forall id | id in ids :: Confirmable(items[id], MetricSet);
  }

  lemma MetricsAreTold(w: World, h: Header, order: seq<ItemId>, s: State, done: State, r: ResultSnapshot)
    requires IsOrder(order, s.items) && GraphAccepted(order, s) && DomainAccepts(w, h, s.items, s.domain) && h.targetType == UseCase
    requires ResultFits(h, s, s, done, r)
    ensures TellsMetrics(s, done, r)
  {
    var ids := SelectedItems(s.items, MetricSet);
    SelectedKnown(s.items, MetricSet);
    NamesAre();
    hide MetricPaths;
    hide MetricNames;
    hide GraphAccepted;
    hide DomainAccepts;
    hide MetricSource;
    hide SelectedItems;
    hide Confirmable;
    hide BroughtByItem;
    forall id | id in s.items && Confirmable(s.items[id], MetricSet)
      ensures s.items[id].targetPath in MetricPaths() && MetricSource(s.items, ids, s.items[id].targetPath) == s.items[id].decision
    {
      SourceAt(w, h, order, s, id);
    }
    forall p | p in MetricNames() && !BroughtByItem(s.items, p) ensures MetricSource(s.items, ids, p) == CurrentDatabase {
      SourceKept(s.items, ids, p);
    }
  }

  lemma ListedAt(before: Items, after: Items, ids: set<ItemId>, created: map<string, ObjectId>, id: ItemId)
    requires Listed(before, after, ids, created) && id in ids
    ensures id in before && id in after && before[id].localKey in created && after[id].created == Some(created[before[id].localKey])
  {
  }

  lemma ListedOnly(before: Items, after: Items, ids: set<ItemId>, created: map<string, ObjectId>, k: string) returns (id: ItemId)
    requires Listed(before, after, ids, created) && k in created
    ensures id in ids && id in before && before[id].localKey == k
  {
    id :| id in ids && id in before && before[id].localKey == k;
  }

  lemma ProcessListedAt(mid: State, after: Items, ids: set<ItemId>, results: map<string, ProcessResult>, id: ItemId)
    requires ProcessesListed(mid, after, ids, results) && id in ids
    ensures id in mid.items && id in after && mid.items[id].localKey in results
    ensures var r := results[mid.items[id].localKey];
            after[id].created == Some(r.process) && ResolveStage(mid, mid.items[id]) == Some(r.stage)
  {
    hide ResolveStage;
  }

  lemma ProcessListedOnly(mid: State, after: Items, ids: set<ItemId>, results: map<string, ProcessResult>, k: string) returns (id: ItemId)
    requires ProcessesListed(mid, after, ids, results) && k in results
    ensures id in ids && id in mid.items && mid.items[id].localKey == k
  {
    hide ResolveStage;
    id :| id in ids && id in mid.items && mid.items[id].localKey == k;
  }

  lemma StageIsTold(w: World, h: Header, s: State, mid: State, done: State, id: ItemId)
    requires StagesCreated(w, s, mid, SelectedItems(s.items, ValueStreamStage))
    requires ProcessesCreated(w, h, mid, done, SelectedItems(s.items, ProcessAnalysis))
    requires id in s.items && id in SelectedItems(s.items, ValueStreamStage)
    ensures id in mid.items && id in done.items && done.items[id] == mid.items[id]
  {
    SelectedIs(s.items, id);
    StagesAdopted(w, s, mid, SelectedItems(s.items, ValueStreamStage));
    ProcessesAdopted(w, h, mid, done, SelectedItems(s.items, ProcessAnalysis));
    hide StagesCreated;
    hide ProcessesCreated;
    hide SelectedItems;
    OnlyAdoptedChange(w, s, mid, SelectedItems(s.items, ValueStreamStage), id);
    OnlyAdoptedChange(w, mid, done, SelectedItems(s.items, ProcessAnalysis), id);
  }

  lemma ProcessIsTold(w: World, h: Header, s: State, mid: State, done: State, id: ItemId, r: ProcessResult)
    requires Allocated(mid.domain) && ProcessesCreated(w, h, mid, done, SelectedItems(s.items, ProcessAnalysis))
    requires StagesCreated(w, s, mid, SelectedItems(s.items, ValueStreamStage))
    requires id in s.items && id in SelectedItems(s.items, ProcessAnalysis) && id in mid.items && id in done.items
    requires done.items[id].created == Some(r.process) && ResolveStage(mid, mid.items[id]) == Some(r.stage)
    ensures r.process in done.domain.processes && done.domain.processes[r.process].stage == r.stage
  {
    hide StagesCreated;
    hide SelectedItems;
    ProcessRowMade(w, h, mid, done, SelectedItems(s.items, ProcessAnalysis), id);
    hide ProcessesCreated;
    ProcessRowTells(w, h, mid, id);
    hide ProcessRowOf;
    hide ResolveStage;
    hide ProcessItemReady;
  }

  lemma StreamItemIs(w: World, h: Header, order: seq<ItemId>, s: State, id: ItemId)
    requires IsOrder(order, s.items) && GraphAccepted(order, s) && DomainAccepts(w, h, s.items, s.domain)
    ensures id in SelectedItems(s.items, ValueStreamStage) <==> id in s.items && Confirmable(s.items[id], ValueStreamStage)
    ensures id in SelectedItems(s.items, ProcessAnalysis) <==> id in s.items && Confirmable(s.items[id], ProcessAnalysis)
  {
    SelectedKnown(s.items, ValueStreamStage);
    SelectedKnown(s.items, ProcessAnalysis);
    if id in s.items {
      SelectedAreConfirmable(w, h, order, s, id);
      SelectedIs(s.items, id);
    }
    hide SelectedItems;
    hide GraphAccepted;
    hide DomainAccepts;
  }

  lemma StageResultIsTold(w: World, h: Header, order: seq<ItemId>, s: State, mid: State, done: State, r: ResultSnapshot, id: ItemId)
    requires GroupExecuted(w, h, s, mid, done) && ResultFits(h, s, mid, done, r) && h.targetType == ValueStream
    requires id in s.items && id in SelectedItems(s.items, ValueStreamStage)
    ensures id in done.items && s.items[id].localKey in r.stages && done.items[id].created == Some(r.stages[s.items[id].localKey])
  {
    hide Listed;
    hide ProcessesListed;
    hide StagesCreated;
    hide ProcessesCreated;
    hide SelectedItems;
    ListedAt(s.items, mid.items, SelectedItems(s.items, ValueStreamStage), r.stages, id);
    StageIsTold(w, h, s, mid, done, id);
  }

  lemma ProcessResultIsTold(w: World, h: Header, order: seq<ItemId>, s: State, mid: State, done: State, r: ResultSnapshot, id: ItemId)
    requires GroupExecuted(w, h, s, mid, done) && ResultFits(h, s, mid, done, r) && h.targetType == ValueStream && Allocated(s.domain)
    requires id in s.items && id in SelectedItems(s.items, ProcessAnalysis)
    ensures id in done.items && s.items[id].localKey in r.processes
    ensures var told := r.processes[s.items[id].localKey];
            done.items[id].created == Some(told.process) && told.process in done.domain.processes
            && done.domain.processes[told.process].stage == told.stage
  {
    hide Listed;
    hide ProcessesListed;
    hide StagesCreated;
    hide ProcessesCreated;
    hide Allocated;
    hide ResolveStage;
    var stages, processes := SelectedItems(s.items, ValueStreamStage), SelectedItems(s.items, ProcessAnalysis);
    SelectedIs(s.items, id);
    hide SelectedItems;
    StagesAdopted(w, s, mid, stages);
    OnlyAdoptedChange(w, s, mid, stages, id);
    hide AdoptedFresh;
    AllocatedAfterStages(w, s, mid, stages);
    ProcessListedAt(mid, done.items, processes, r.processes, id);
    ProcessIsTold(w, h, s, mid, done, id, r.processes[mid.items[id].localKey]);
  }

  lemma StageKeyIsTold(w: World, h: Header, order: seq<ItemId>, s: State, mid: State, done: State, r: ResultSnapshot, k: string)
    requires IsOrder(order, s.items) && GraphAccepted(order, s) && DomainAccepts(w, h, s.items, s.domain)
    requires ResultFits(h, s, mid, done, r) && h.targetType == ValueStream && k in r.stages
    ensures exists id :: id in s.items && Confirmable(s.items[id], ValueStreamStage) && s.items[id].localKey == k
  {
    hide Listed;
    hide ProcessesListed;
    hide GraphAccepted;
    hide DomainAccepts;
    hide SelectedItems;
    hide Confirmable;
    var id := ListedOnly(s.items, mid.items, SelectedItems(s.items, ValueStreamStage), r.stages, k);
    StreamItemIs(w, h, order, s, id);
  }

  lemma ProcessKeyIsTold(w: World, h: Header, order: seq<ItemId>, s: State, mid: State, done: State, r: ResultSnapshot, k: string)
    requires IsOrder(order, s.items) && GraphAccepted(order, s) && DomainAccepts(w, h, s.items, s.domain)
    requires GroupExecuted(w, h, s, mid, done) && ResultFits(h, s, mid, done, r) && h.targetType == ValueStream && k in r.processes
    ensures exists id :: id in s.items && Confirmable(s.items[id], ProcessAnalysis) && s.items[id].localKey == k
  {
    hide Listed;
    hide ProcessesListed;
    hide GraphAccepted;
    hide DomainAccepts;
    hide GroupExecuted;
    hide SelectedItems;
    hide Confirmable;
    var id := ProcessListedOnly(mid, done.items, SelectedItems(s.items, ProcessAnalysis), r.processes, k);
    StreamItemIs(w, h, order, s, id);
    KeptByStages(w, h, s, mid, done, id);
  }

  lemma StreamIsTold(w: World, h: Header, order: seq<ItemId>, s: State, mid: State, done: State, r: ResultSnapshot)
    requires Constraints(order, s.items, s.domain) && GraphAccepted(order, s) && DomainAccepts(w, h, s.items, s.domain)
    requires GroupExecuted(w, h, s, mid, done) && ResultFits(h, s, mid, done, r) && h.targetType == ValueStream
    ensures TellsStream(s, done, r)
  {
    assert Allocated(s.domain) && IsOrder(order, s.items);
    assert r.StreamResult? && r.attempt == s.batch.attempts;
    hide *;
    forall id | id in s.items && Confirmable(s.items[id], ValueStreamStage)
      ensures id in done.items && s.items[id].localKey in r.stages && done.items[id].created == Some(r.stages[s.items[id].localKey])
    {
      StreamItemIs(w, h, order, s, id);
      StageResultIsTold(w, h, order, s, mid, done, r, id);
    }
    forall id | id in s.items && Confirmable(s.items[id], ProcessAnalysis)
      ensures id in done.items && s.items[id].localKey in r.processes
      ensures var told := r.processes[s.items[id].localKey];
              done.items[id].created == Some(told.process) && told.process in done.domain.processes
              && done.domain.processes[told.process].stage == told.stage
    {
      StreamItemIs(w, h, order, s, id);
      ProcessResultIsTold(w, h, order, s, mid, done, r, id);
    }
    forall k | k in r.stages ensures exists id :: id in s.items && Confirmable(s.items[id], ValueStreamStage) && s.items[id].localKey == k {
      StageKeyIsTold(w, h, order, s, mid, done, r, k);
    }
    forall k | k in r.processes ensures exists id :: id in s.items && Confirmable(s.items[id], ProcessAnalysis) && s.items[id].localKey == k {
      ProcessKeyIsTold(w, h, order, s, mid, done, r, k);
    }
    StreamToldBy(s, done, r);
  }

  lemma KeptByStages(w: World, h: Header, s: State, mid: State, done: State, id: ItemId)
    requires GroupExecuted(w, h, s, mid, done) && h.targetType == ValueStream
    requires id in SelectedItems(s.items, ProcessAnalysis)
    ensures id in s.items && id in mid.items && mid.items[id] == s.items[id]
  {
    SelectedKnown(s.items, ProcessAnalysis);
    SelectedIs(s.items, id);
    hide SelectedItems;
    hide StagesCreated;
    hide ProcessesCreated;
    StagesAdopted(w, s, mid, SelectedItems(s.items, ValueStreamStage));
    OnlyAdoptedChange(w, s, mid, SelectedItems(s.items, ValueStreamStage), id);
  }

  lemma StreamToldBy(s: State, s': State, r: ResultSnapshot)
    requires r.StreamResult? && r.attempt == s.batch.attempts
    requires forall id | id in s.items && Confirmable(s.items[id], ValueStreamStage) ::
               id in s'.items && s.items[id].localKey in r.stages && s'.items[id].created == Some(r.stages[s.items[id].localKey])
    requires forall id | id in s.items && Confirmable(s.items[id], ProcessAnalysis) ::
               && id in s'.items && s.items[id].localKey in r.processes
               && var told := r.processes[s.items[id].localKey];
                  s'.items[id].created == Some(told.process) && told.process in s'.domain.processes
                  && s'.domain.processes[told.process].stage == told.stage
    requires forall k | k in r.stages :: exists id :: id in s.items && Confirmable(s.items[id], ValueStreamStage) && s.items[id].localKey == k
    requires forall k | k in r.processes :: exists id :: id in s.items && Confirmable(s.items[id], ProcessAnalysis) && s.items[id].localKey == k
    ensures TellsStream(s, s', r)
  {
    hide Confirmable;
  }

  /** The committed batch is closed without an error, and its stored result tells what the commit did. */
  lemma ResultTells(w: World, h: Header, order: seq<ItemId>, s: State, actor: Actor, key: IdempotencyKey, s': State)
    requires Constraints(order, s.items, s.domain) && CanExecute(w, h, order, s, actor, key) && Executed(w, h, s, actor, s')
    ensures s'.batch == s.batch.(status := BatchStatus.Committed, result := s'.batch.result, error := None, completedAt := Some(w.now),
                                 processingBy := None)
    ensures if h.targetType == UseCase then TellsMetrics(s, s', s'.batch.result) else TellsStream(s, s', s'.batch.result)
  {
    hide Constraints;
    hide GraphAccepted;
    hide DomainAccepts;
    hide GroupExecuted;
    hide ResultFits;
    hide KeyHolds;
    hide TellsMetrics;
    hide TellsStream;
    ConstraintsOrder(order, s.items, s.domain);
    var mid :| ExecutedVia(w, h, s, actor, mid, s');
    var done := State(s.batch, s'.items, s'.domain, s.audits);
    if h.targetType == UseCase {
      SameMid(w, h, s, mid, done);
      MetricsAreTold(w, h, order, s, done, s'.batch.result);
      MetricsReadOff(s, done, s', s'.batch.result);
    } else {
      StreamIsTold(w, h, order, s, mid, done, s'.batch.result);
      StreamReadOff(s, done, s', s'.batch.result);
    }
  }

  lemma SameMid(w: World, h: Header, s: State, mid: State, done: State)
    requires GroupExecuted(w, h, s, mid, done) && h.targetType == UseCase
    ensures mid == s
  {
    hide MetricsAdopted;
  }

  lemma MetricsReadOff(s: State, t: State, s': State, r: ResultSnapshot)
    requires TellsMetrics(s, t, r) && t.domain == s'.domain
    ensures TellsMetrics(s, s', r)
  {
    hide Confirmable;
    hide BroughtByItem;
    hide MetricNames;
  }

  lemma StreamReadOff(s: State, t: State, s': State, r: ResultSnapshot)
    requires TellsStream(s, t, r) && t.domain == s'.domain && t.items == s'.items
    ensures TellsStream(s, s', r)
  {
    hide Confirmable;
  }
}
