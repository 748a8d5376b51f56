/** What committing a batch writes to the domain, and exactly when it is allowed to. */
module StructuredExecution {
  import opened Options
  import opened Texts
  import opened StructuredModel
  import Decimals

  function StageFields(): set<string> {
    {"sequence", "name", "description", "actors", "systems", "documents", "pain_points", "baseline_metrics"}
  }

  function RequiredProcessFields(): set<string> {
    {"name", "scope_start", "scope_end", "trigger", "outcome", "current_flow", "roles", "systems", "data_objects",
      "bottlenecks", "baseline_metrics"}
  }

  function ProcessFields(): set<string> {
    RequiredProcessFields() + {"business_rules", "handoffs", "exceptions", "target_state_principles"}
  }

  function MetricPaths(): seq<string> {
    ["use_case.metric.name", "use_case.metric.type", "use_case.metric.direction", "use_case.metric.unit",
      "use_case.metric.baseline", "use_case.metric.target", "use_case.metric.measurement_method"]
  }

  // ---- values

  predicate KeyChar(c: char) { 'a' <= c <= 'z' || '0' <= c <= '9' }

  /** `validate_local_key`: lower-case words of letters and digits joined by single hyphens. */
  predicate ValidLocalKey(k: string) {
    && k != "" && KeyChar(k[0]) && KeyChar(k[|k| - 1])
    && forall i | 0 <= i < |k| :: KeyChar(k[i]) || (k[i] == '-' && i + 1 < |k| && KeyChar(k[i + 1]))
  }

  /** `str(value)` */
  function Str(c: Cell): string {
    match c
    case Text(t) => t
    case Number(n) => if n < 0 then "-" + Decimals.DigitsOf(-n) else Decimals.DigitsOf(n)
    case Flag(b) => if b then "True" else "False"
    case Nothing => "None"
  }

  /** The field object of a confirmed stage or process item, if it has one. */
  function ConfirmedFields(i: Item): Option<Fields> {
    if i.decision == ConfirmedProposal then Some(i.interpretation.fields)
    else if i.decisionSnapshot.EditedFields? then Some(i.decisionSnapshot.fields)
    else None
  }

  predicate ValidStageValues(v: Fields) {
    && v.Keys <= StageFields() && "sequence" in v && "name" in v
    && v["sequence"].Number? && v["sequence"].n > 0
    && Strip(Str(v["name"])) != ""
  }

  function StageValues(v: Fields): Fields
    requires ValidStageValues(v)
  {
    map f | f in StageFields() ::
      if f == "sequence" then v[f] else if f == "name" then Text(Strip(Str(v[f])))
      else if f in v then v[f] else Text("")
  }

  predicate ValidProcessValues(v: Fields) {
    && v.Keys <= ProcessFields()
    && (forall f | f in v :: v[f].Text?)
    && (forall f | f in RequiredProcessFields() :: f in v && Strip(Str(v[f])) != "")
  }

  function ProcessValues(v: Fields): Fields
    requires ValidProcessValues(v)
  {
    map f | f in ProcessFields() :: Text(if f in v then Strip(v[f].text) else "")
  }

  // ---- stages

  /** `_confirmed_stage_values`: the checks on one stage item by itself. */
  predicate StageValuesReady(i: Item) {
    && i.kind == ValueStreamStage && ValidLocalKey(i.localKey) && i.groupKey == i.localKey
    && i.status == Confirmed && ConfirmedDecision(i.decision)
    && ConfirmedFields(i).Some? && ValidStageValues(ConfirmedFields(i).value)
  }

  /** All checks on one stage item before any stage is created. */
  predicate StageItemReady(w: World, i: Item) {
    StageValuesReady(i) && w.stageForm(StageValues(ConfirmedFields(i).value)).Some?
  }

  function SequenceOf(i: Item): int {
    var v := ConfirmedFields(i);
    if v.Some? && "sequence" in v.value && v.value["sequence"].Number? then v.value["sequence"].n else 0
  }

  predicate Taken(stages: map<ObjectId, StageRow>, sequence: int) {
    exists o | o in stages :: stages[o].sequence == sequence
  }

  /** All stage items of the batch can be created together. */
  predicate StagesReady(w: World, items: Items, d: Domain, ids: set<ItemId>)
    requires ids <= items.Keys
  {
    && (forall id | id in ids :: StageItemReady(w, items[id]) && !Taken(d.stages, SequenceOf(items[id])))
    && SequencesDistinct(items, ids)
  }

  predicate SequencesDistinct(items: Items, ids: set<ItemId>)
    requires ids <= items.Keys
  {
    forall a, b | a in ids && b in ids && SequenceOf(items[a]) == SequenceOf(items[b]) :: a == b
  }

  /** Item `n` is in order like all before it, and wants a place in the stream that one of them has. */
  ghost predicate RepeatsAt(items: Items, ids: seq<ItemId>, n: nat)
    requires forall id | id in ids :: id in items
  {
    && n < |ids| && (forall k | 0 <= k <= n :: StageValuesReady(items[ids[k]]))
    && exists k | 0 <= k < n :: SequenceOf(items[ids[k]]) == SequenceOf(items[ids[n]])
  }

  /** Before anything else is found wrong, two stage items, or one of them and an existing stage, want the same place. */
  ghost predicate StagesClash(items: Items, d: Domain, ids: seq<ItemId>)
    requires forall id | id in ids :: id in items
  {
    || (exists n :: RepeatsAt(items, ids, n))
    || ((forall id | id in ids :: StageValuesReady(items[id])) && exists id | id in ids :: Taken(d.stages, SequenceOf(items[id])))
  }

  /** The stage a ready item creates: its sequence, and the fields as the form cleans them. */
  function StageRowOf(w: World, i: Item): StageRow
    requires StageItemReady(w, i)
  {
    StageRow(SequenceOf(i), w.stageForm(StageValues(ConfirmedFields(i).value)).value)
  }

  function AdoptedItem(w: World, i: Item, created: Option<ObjectId>): Item {
    i.(status := Adopted, created := created, resolvedAt := Some(w.now), error := NoError)
  }

  /** The items `ids` are adopted, each under a new id of its own, and no other item changes. */
  ghost predicate AdoptedFresh(w: World, s: State, s': State, ids: set<ItemId>) {
    && ids <= s.items.Keys && s'.items.Keys == s.items.Keys
    && s.domain.nextId <= s'.domain.nextId
    && (forall id | id in s.items :: s'.items[id] ==
          if id in ids then AdoptedItem(w, s.items[id], s'.items[id].created) else s.items[id])
    && (forall id | id in ids :: s'.items[id].created.Some?
          && s.domain.nextId <= s'.items[id].created.value < s'.domain.nextId)
    && (forall a, b | a in ids && b in ids && s'.items[a].created == s'.items[b].created :: a == b)
  }

  /** The ids under which the items of `ids` were created. */
  function CreatedIds(items: Items, ids: set<ItemId>): map<ItemId, ObjectId> {
    map id | id in ids && id in items && items[id].created.Some? :: items[id].created.value
  }

  /** A table gained exactly the given rows under the given ids. */
  ghost predicate RowsAdded<R>(before: map<ObjectId, R>, after: map<ObjectId, R>, created: map<ItemId, ObjectId>,
    rows: map<ItemId, R>)
  {
    && created.Keys == rows.Keys
    && (forall o :: o in after <==> o in before || o in created.Values)
    && (forall o | o in before :: after[o] == before[o])
    && (forall id | id in created :: after[created[id]] == rows[id])
  }

  /** The items of `rows` are adopted and their rows added to the stages; nothing else changes. */
  ghost predicate StagesAdded(w: World, s: State, s': State, rows: map<ItemId, StageRow>) {
    && AdoptedFresh(w, s, s', rows.Keys)
    && s'.batch == s.batch && s'.audits == s.audits
    && s'.domain.processes == s.domain.processes && s'.domain.metrics == s.domain.metrics
    && RowsAdded(s.domain.stages, s'.domain.stages, CreatedIds(s'.items, rows.Keys), rows)
  }

  function StageRowsOf(w: World, items: Items, ids: set<ItemId>): map<ItemId, StageRow> {
    map id | id in ids && id in items && StageItemReady(w, items[id]) :: StageRowOf(w, items[id])
  }

  /** Creating the stages of `ids` and nothing else. */
  ghost predicate StagesCreated(w: World, s: State, s': State, ids: set<ItemId>) {
    && (forall id | id in ids :: id in s.items && StageItemReady(w, s.items[id]))
    && StagesAdded(w, s, s', StageRowsOf(w, s.items, ids))
  }

  // ---- processes

  /** `_resolve_stage` */
  function ResolveStage(s: State, i: Item): Option<ObjectId> {
    match i.stageReference
    case None => None
    case Some(Existing(stage)) =>
      if i.dependsOn.None? && i.dependencyKey == "" && stage in s.domain.stages then Some(stage) else None
    case Some(Local(key)) =>
      if ValidLocalKey(key) && i.dependsOn.Some? && i.dependsOn.value in s.items then
        var d := s.items[i.dependsOn.value];
        if d.kind == ValueStreamStage && d.localKey == key && i.dependencyKey == key && d.status == Adopted
           && d.created.Some? && d.created.value in s.domain.stages
        then d.created else None
      else None
  }

  /** The checks on one process item that do not concern its stage. */
  predicate ProcessItemReady(w: World, h: Header, i: Item) {
    && i.kind == ProcessAnalysis && ValidLocalKey(i.localKey) && i.groupKey == i.localKey
    && i.status == Confirmed && ConfirmedDecision(i.decision) && i.confirmedBy.Some? && i.confirmedAt.Some?
    && ConfirmedFields(i).Some? && ValidProcessValues(ConfirmedFields(i).value)
    && w.processForm(ProcessValues(ConfirmedFields(i).value)).Some?
    && i.source.analysis == h.analysis && Strip(i.source.extractionVersion) != ""
  }

  function ProcessRowOf(w: World, h: Header, s: State, id: ItemId): ProcessRow
    requires id in s.items && ProcessItemReady(w, h, s.items[id]) && ResolveStage(s, s.items[id]).Some?
  {
    var i := s.items[id];
    ProcessRow(ResolveStage(s, i).value, w.processForm(ProcessValues(ConfirmedFields(i).value)).value, id, i.confirmedBy)
  }

  /** The items of `rows` are adopted and their rows added to the processes; nothing else changes. */
  ghost predicate ProcessesAdded(w: World, s: State, s': State, rows: map<ItemId, ProcessRow>) {
    && AdoptedFresh(w, s, s', rows.Keys)
    && s'.batch == s.batch && s'.audits == s.audits
    && s'.domain.stages == s.domain.stages && s'.domain.metrics == s.domain.metrics
    && RowsAdded(s.domain.processes, s'.domain.processes, CreatedIds(s'.items, rows.Keys), rows)
  }

  function ProcessRowsOf(w: World, h: Header, s: State, ids: set<ItemId>): map<ItemId, ProcessRow> {
    map id | id in ids && id in s.items && ProcessItemReady(w, h, s.items[id]) && ResolveStage(s, s.items[id]).Some?
      :: ProcessRowOf(w, h, s, id)
  }

  /** Creating the processes of `ids` and nothing else. */
  ghost predicate ProcessesCreated(w: World, h: Header, s: State, s': State, ids: set<ItemId>) {
    && (forall id | id in ids :: id in s.items && ProcessItemReady(w, h, s.items[id]) && ResolveStage(s, s.items[id]).Some?)
    && ProcessesAdded(w, s, s', ProcessRowsOf(w, h, s, ids))
  }

  // ---- metrics

  function MetricValue(i: Item): Option<Cell> {
    if i.decision == ConfirmedProposal then Some(i.interpretation.value)
    else if i.decision == ConfirmedEdited && i.decisionSnapshot.EditedValue? then Some(i.decisionSnapshot.value)
    else None
  }

  function Metric(metrics: Fields, path: string): Cell {
    if path in metrics then metrics[path] else Nothing
  }

  /** Nobody changed the field since the review read it. */
  predicate MetricUnchanged(metrics: Fields, i: Item) {
    i.fieldHash == Some(Metric(metrics, i.targetPath))
  }

  /** The item brings a value for a field nobody changed. */
  predicate MetricFits(metrics: Fields, i: Item) {
    MetricValue(i).Some? && MetricUnchanged(metrics, i)
  }

  /** The checks on one metric item: a released path, a value, and an unchanged field. */
  predicate MetricItemReady(metrics: Fields, i: Item) {
    && i.kind == MetricSet && i.targetPath in MetricPaths()
    && i.status == Confirmed && ConfirmedDecision(i.decision)
    && MetricFits(metrics, i)
  }

  /** The first loop of the merge: item kind, released path, decision. */
  predicate MetricItemUsable(i: Item) {
    i.kind == MetricSet && i.targetPath in MetricPaths() && i.status == Confirmed && ConfirmedDecision(i.decision)
  }

  /** The merge reaches path `n`, and somebody changed its field after the review read it. */
  ghost predicate ClashesAt(items: Items, metrics: Fields, ids: set<ItemId>, n: nat)
    requires ids <= items.Keys
  {
    && n < |MetricPaths()|
    && (exists id | id in ids :: items[id].targetPath == MetricPaths()[n] && !MetricUnchanged(metrics, items[id]))
    && forall id, k | id in ids && 0 <= k < n && items[id].targetPath == MetricPaths()[k] :: MetricFits(metrics, items[id])
  }

  /** Before anything else is found wrong, the merge comes upon a changed field. */
  ghost predicate MetricsClash(items: Items, d: Domain, ids: set<ItemId>)
    requires ids <= items.Keys
  {
    && (forall id | id in ids :: MetricItemUsable(items[id])) && PathsUnique(items, ids)
    && exists n :: ClashesAt(items, d.metrics, ids, n)
  }

  predicate PathsUnique(items: Items, ids: set<ItemId>)
    requires ids <= items.Keys
  {
    forall a, b | a in ids && b in ids && items[a].targetPath == items[b].targetPath :: a == b
  }

  /** The confirmed item for a metric path, if there is one. */
  ghost function MetricItem(items: Items, ids: set<ItemId>, path: string): Option<ItemId>
    requires ids <= items.Keys
  {
    if exists id | id in ids :: items[id].targetPath == path && MetricValue(items[id]).Some? then
      var id :| id in ids && items[id].targetPath == path && MetricValue(items[id]).Some?;
      Some(id)
    else None
  }

  /** The value a metric path ends up with: the confirmed item's, or the current one. */
  ghost function EffectiveMetric(items: Items, metrics: Fields, ids: set<ItemId>, path: string): Cell
    requires ids <= items.Keys
  {
    match MetricItem(items, ids, path)
    case Some(id) => MetricValue(items[id]).value
    case None => Metric(metrics, path)
  }

  /** Where the effective value of a metric path comes from. */
  ghost function MetricSource(items: Items, ids: set<ItemId>, path: string): Decision
    requires ids <= items.Keys
  {
    match MetricItem(items, ids, path)
    case Some(id) => items[id].decision
    case None => CurrentDatabase
  }

  /** The seven merged values. */
  ghost function EffectiveMetrics(items: Items, metrics: Fields, ids: set<ItemId>): Fields
    requires ids <= items.Keys
  {
    map path | path in MetricPaths() :: EffectiveMetric(items, metrics, ids, path)
  }

  /** The seven metric fields as the form cleaned them; everything else about the use case stays. */
  function SaveMetrics(metrics: Fields, cleaned: Fields): Fields {
    metrics + map p | p in MetricPaths() && p in cleaned :: cleaned[p]
  }

  /** The metric fields whose value is another one than before. */
  function ChangedMetrics(before: Fields, after: Fields): set<string> {
    set p | p in MetricPaths() && Metric(before, p) != Metric(after, p)
  }

  ghost predicate MetricsReady(w: World, items: Items, d: Domain, ids: set<ItemId>)
    requires ids <= items.Keys
  {
    && (forall id | id in ids :: MetricItemReady(d.metrics, items[id]))
    && PathsUnique(items, ids)
    && w.metricForm(EffectiveMetrics(items, d.metrics, ids)).Some?
  }

  /** Adopting the metric items `ids` and nothing else. */
  ghost predicate MetricsAdopted(w: World, s: State, s': State, ids: set<ItemId>) {
    && ids <= s.items.Keys && s'.items.Keys == s.items.Keys
    && w.metricForm(EffectiveMetrics(s.items, s.domain.metrics, ids)).Some?
    && s'.domain == s.domain.(metrics := SaveMetrics(s.domain.metrics, w.metricForm(EffectiveMetrics(s.items, s.domain.metrics, ids)).value))
    && s'.batch == s.batch && s'.audits == s.audits
    && (forall id | id in s.items :: s'.items[id] ==
          if id in ids then AdoptedItem(w, s.items[id], s.items[id].created) else s.items[id])
  }

  // ---- the item graph

  predicate DependencyBlocked(d: Item) {
    || d.decision == Rejected
    || d.status.ItemRejected? || d.status.Invalid? || d.status.DependencyInvalid? || d.status.ItemConflict?
    || d.status.ItemStale? || d.status.ItemFailed?
  }

  /** The checks of `_assert_item_graph` on one item. */
  predicate ItemAccepted(items: Items, i: Item) {
    if i.decision == Rejected then i.status == ItemRejected
    else
      && Selected(i.decision) && i.status == Confirmed && i.confirmedBy.Some? && i.confirmedAt.Some?
      && (match i.dependsOn
          case None => i.dependencyKey == ""
          case Some(d) => d in items && i.dependencyKey == items[d].localKey && !DependencyBlocked(items[d]))
  }

  ghost predicate GraphAccepted(order: seq<ItemId>, s: State)
    requires IsOrder(order, s.items)
  {
    && s.items != map[]
    && s.batch.graph == GraphHash(GraphOf(order, s.items))
    && forall id | id in s.items :: ItemAccepted(s.items, s.items[id])
  }

  /** `_selected_items` */
  function SelectedItems(items: Items, kind: Kind): set<ItemId> {
    set id | id in items && items[id].kind == kind && Selected(items[id].decision) && items[id].status == Confirmed
  }

  /** The same in the order of their local keys. */
  function SelectedInOrder(order: seq<ItemId>, items: Items, kind: Kind): (ids: seq<ItemId>)
    ensures forall id | id in ids :: id in items
  {
    if order == [] then []
    else
      var front := SelectedInOrder(order[..|order| - 1], items, kind);
      var id := order[|order| - 1];
      if id in items && items[id].kind == kind && Selected(items[id].decision) && items[id].status == Confirmed
      then front + [id] else front
  }

  predicate KindsAllowed(items: Items, kinds: set<Kind>) {
    forall id | id in items && items[id].decision != Rejected :: items[id].kind in kinds
  }

  // ---- the whole execution

  /** Whether a process item will find its stage once the selected stages exist. */
  predicate StageWillResolve(items: Items, d: Domain, i: Item) {
    match i.stageReference
    case None => false
    case Some(Existing(stage)) => i.dependsOn.None? && i.dependencyKey == "" && stage in d.stages
    case Some(Local(key)) =>
      && ValidLocalKey(key) && i.dependsOn.Some? && i.dependsOn.value in SelectedItems(items, ValueStreamStage)
      && items[i.dependsOn.value].localKey == key && i.dependencyKey == key
  }

  /** What remains to the domain once batch, permission and graph are in order. */
  ghost predicate DomainAccepts(w: World, h: Header, items: Items, d: Domain) {
    match h.targetType
    case UseCase =>
      var metrics := SelectedItems(items, MetricSet);
      KindsAllowed(items, {MetricSet}) && metrics != {} && MetricsReady(w, items, d, metrics)
    case ValueStream =>
      var stages := SelectedItems(items, ValueStreamStage);
      var processes := SelectedItems(items, ProcessAnalysis);
      && KindsAllowed(items, {ValueStreamStage, ProcessAnalysis})
      && stages + processes != {}
      && StagesReady(w, items, d, stages)
      && (forall id | id in processes :: ProcessItemReady(w, h, items[id]) && StageWillResolve(items, d, items[id]))
  }

  predicate KeyHolds(h: Header, b: Batch, key: IdempotencyKey) {
    key == b.key && b.key == KeyOf(h, b.graph)
  }

  /** Every check of `_execute_reserved_batch`. */
  ghost predicate CanExecute(w: World, h: Header, order: seq<ItemId>, s: State, actor: Actor, key: IdempotencyKey)
    requires IsOrder(order, s.items)
  {
    && KeyHolds(h, s.batch, key)
    && s.batch.status == Processing && s.batch.processingBy == Some(actor)
    && w.targetExists && w.canEdit(actor) && w.sessionCurrent && w.analysisCurrent
    && GraphAccepted(order, s)
    && DomainAccepts(w, h, s.items, s.domain)
  }

  /** The first check before the domain that fails, in the order the transaction makes them. */
  ghost function FirstRefusal(w: World, h: Header, order: seq<ItemId>, s: State, actor: Actor, key: IdempotencyKey)
    : Option<CommitError>
    requires IsOrder(order, s.items)
  {
    if !KeyHolds(h, s.batch, key) then Some(KeyMismatch)
    else if !(s.batch.status == Processing && s.batch.processingBy == Some(actor)) then Some(ReservationLost)
    else if !w.targetExists then Some(TargetMissing)
    else if !w.canEdit(actor) then Some(PermissionDenied)
    else if !w.sessionCurrent then Some(if w.captureVanished then Unexpected else SessionStale)
    else if !w.analysisCurrent then Some(if w.captureVanished then Unexpected else AnalysisStale)
    else if !GraphAccepted(order, s) then Some(GraphRefused)
    else None
  }

  /** What stops the execution is that somebody else took a sequence or changed a metric, or a clash within the batch. */
  ghost predicate DomainClash(h: Header, order: seq<ItemId>, items: Items, d: Domain) {
    match h.targetType
    case UseCase => KindsAllowed(items, {MetricSet}) && MetricsClash(items, d, SelectedItems(items, MetricSet))
    case ValueStream =>
      KindsAllowed(items, {ValueStreamStage, ProcessAnalysis}) && StagesClash(items, d, SelectedInOrder(order, items, ValueStreamStage))
  }

  /** The error a refused execution reports. */
  ghost predicate Reports(w: World, h: Header, order: seq<ItemId>, s: State, actor: Actor, key: IdempotencyKey, e: CommitError)
    requires IsOrder(order, s.items)
  {
    match FirstRefusal(w, h, order, s, actor, key)
    case Some(refusal) => e == refusal
    case None => !DomainAccepts(w, h, s.items, s.domain)
                 && e == if DomainClash(h, order, s.items, s.domain) then DomainConflict else DomainInvalid
  }

  /** The committed batch row. */
  function CommittedBatch(w: World, b: Batch, result: ResultSnapshot): Batch {
    b.(status := Committed, result := result, error := None, completedAt := Some(w.now), processingBy := None)
  }

  /** Under its local key, what each adopted stage item created. */
  ghost predicate Listed(before: Items, after: Items, ids: set<ItemId>, created: map<string, ObjectId>) {
    && (forall id | id in ids :: id in before && id in after)
    && created.Keys == (set id | id in ids && id in before :: before[id].localKey)
    && (forall id | id in ids && id in before && id in after && before[id].localKey in created ::
          Some(created[before[id].localKey]) == after[id].created)
  }

  /** Under its local key, what each adopted process item created and at which stage. */
  ghost predicate ProcessesListed(s: State, after: Items, ids: set<ItemId>, results: map<string, ProcessResult>) {
    && (forall id | id in ids :: id in s.items && id in after)
    && results.Keys == (set id | id in ids && id in s.items :: s.items[id].localKey)
    && (forall id | id in ids && id in s.items && id in after && s.items[id].localKey in results ::
          var r := results[s.items[id].localKey];
          Some(r.process) == after[id].created && Some(r.stage) == ResolveStage(s, s.items[id]))
  }

  /** The result snapshot tells what the execution did. `mid` is the state after the stage loop. */
  ghost predicate ResultFits(h: Header, s: State, mid: State, s': State, result: ResultSnapshot) {
    match h.targetType
    case UseCase =>
      var ids := SelectedItems(s.items, MetricSet);
      && result.MetricResult? && result.attempt == s.batch.attempts
      && result.effective == (map p | p in MetricPaths() :: Metric(s'.domain.metrics, p))
      && result.sources == (map p | p in MetricPaths() :: MetricSource(s.items, ids, p))
      && result.changed == ChangedMetrics(s.domain.metrics, s'.domain.metrics)
    case ValueStream =>
      && result.StreamResult? && result.attempt == s.batch.attempts
      && Listed(s.items, mid.items, SelectedItems(s.items, ValueStreamStage), result.stages)
      && ProcessesListed(mid, s'.items, SelectedItems(s.items, ProcessAnalysis), result.processes)
  }

  /** What the execution does to items and domain. `mid` is the state after the stage loop. */
  ghost predicate GroupExecuted(w: World, h: Header, s: State, mid: State, s': State) {
    match h.targetType
    case UseCase => mid == s && MetricsAdopted(w, s, s', SelectedItems(s.items, MetricSet))
    case ValueStream =>
      && StagesCreated(w, s, mid, SelectedItems(s.items, ValueStreamStage))
      && ProcessesCreated(w, h, mid, s', SelectedItems(s.items, ProcessAnalysis))
  }

  /** A successful execution as a change of the rows. */
  ghost predicate ExecutedVia(w: World, h: Header, s: State, actor: Actor, mid: State, s': State) {
    var done := State(s.batch, s'.items, s'.domain, s.audits);
    && GroupExecuted(w, h, s, mid, done)
    && ResultFits(h, s, mid, done, s'.batch.result)
    && s'.batch == CommittedBatch(w, s.batch, s'.batch.result)
    && s'.audits == s.audits + [Audit(CommittedEvent, actor, None, s.batch.key, s.batch.attempts)]
  }

  ghost predicate Executed(w: World, h: Header, s: State, actor: Actor, s': State) {
    exists mid :: ExecutedVia(w, h, s, actor, mid, s')
  }

  // ---- the other transactions of a commit

  function FailureStatus(e: CommitError): BatchStatus {
    match e
    case DomainConflict => Conflict
    case TargetMissing => Stale
    case SessionStale => Stale
    case AnalysisStale => Stale
    case _ => Failed
  }

  /** `_preflight` */
  predicate Preflight(w: World, h: Header, b: Batch, actor: Actor, key: IdempotencyKey) {
    KeyHolds(h, b, key) && w.targetExists && w.canEdit(actor)
  }

  datatype Reservation = Reserved(attempt: nat) | Replay(attempt: nat, result: ResultSnapshot) | Refused

  /** `_reserve_batch` */
  function ReservationOf(h: Header, b: Batch, key: IdempotencyKey): Reservation {
    if !KeyHolds(h, b, key) then Refused
    else if b.status == Committed then Replay(b.attempts, b.result)
    else if b.status.Open? || b.status.Failed? then Reserved(b.attempts + 1)
    else Refused
  }

  function ReserveBatch(h: Header, b: Batch, actor: Actor, key: IdempotencyKey): Batch {
    if ReservationOf(h, b, key).Reserved? then
      b.(status := Processing, processingBy := Some(actor), completedAt := None, attempts := b.attempts + 1,
         result := NoResult, error := None)
    else b
  }

  /** `_record_failure` */
  function RecordFailure(w: World, s: State, actor: Actor, e: CommitError): State {
    if s.batch.status == Committed then s
    else
      var status := FailureStatus(e);
      s.(batch := s.batch.(status := status, error := Some(e), completedAt := Some(w.now), processingBy := None),
         audits := s.audits + [Audit(if status == Conflict then ConflictEvent else FailedEvent, actor, None,
                                     s.batch.key, s.batch.attempts)])
  }

  datatype CommitOutcome =
    | Done(attempt: nat, result: ResultSnapshot)
    | Replayed(attempt: nat, result: ResultSnapshot)
    | RefusedBeforeReservation
    | FailedWith(error: CommitError)

  /** What one call of `commit_structured_batch` does when nothing happens between its transactions. */
  ghost predicate Commits(pre: World, exec: World, post: World, h: Header, order: seq<ItemId>, s: State, actor: Actor,
    key: IdempotencyKey, o: CommitOutcome, s': State)
    requires IsOrder(order, s.items)
  {
    var reserved := s.(batch := ReserveBatch(h, s.batch, actor, key));
    if !Preflight(pre, h, s.batch, actor, key) then o == RefusedBeforeReservation && s' == s
    else match ReservationOf(h, s.batch, key)
      case Refused => o == RefusedBeforeReservation && s' == s
      case Replay(attempt, result) => o == Replayed(attempt, result) && s' == s
      case Reserved(attempt) =>
        if CanExecute(exec, h, order, reserved, actor, key) then
          Executed(exec, h, reserved, actor, s') && o == Done(attempt, s'.batch.result)
        else
          && o.FailedWith? && Reports(exec, h, order, reserved, actor, key, o.error)
          && s' == RecordFailure(post, reserved, actor, o.error)
  }
}
