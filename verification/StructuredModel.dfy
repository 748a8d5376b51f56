/** The rows of a structured adoption batch, and the sealed form of its item graph. */
module StructuredModel {
  import opened Options

  type ItemId = nat
  type ObjectId = nat
  type Actor = nat
  type Time = int

  datatype Kind = MetricSet | ValueStreamStage | ProcessAnalysis

  datatype ItemStatus =
    | ItemOpen | Confirmed | ItemRejected | Ambiguous | Invalid | DependencyInvalid
    | ItemConflict | ItemStale | Adopted | ItemFailed

  datatype Decision = Pending | ConfirmedProposal | ConfirmedEdited | CurrentDatabase | Rejected

  datatype StageReference = Existing(stage: ObjectId) | Local(key: string)

  /** A JSON leaf as it occurs in the snapshots. */
  datatype Cell = Text(text: string) | Number(n: int) | Flag(b: bool) | Nothing

  type Fields = map<string, Cell>

  /** What the review derived from the suggestions: whether every field is valid, and the values. */
  datatype Interpretation = Interpretation(valid: bool, fields: Fields, value: Cell)

  datatype DecisionSnapshot = NoEdit | EditedValue(value: Cell) | EditedFields(fields: Fields)

  datatype Source = Source(analysis: nat, extractionVersion: string, suggestions: seq<nat>)

  datatype ItemError = NoError | StageDependencyRejected

  datatype Item = Item(
    localKey: string, kind: Kind, targetPath: string, groupKey: string,
    dependsOn: Option<ItemId>, dependencyKey: string,
    proposed: Fields, stageReference: Option<StageReference>, interpretation: Interpretation,
    decisionSnapshot: DecisionSnapshot, fieldHash: Option<Cell>, source: Source,
    status: ItemStatus, decision: Decision,
    confirmedBy: Option<Actor>, confirmedAt: Option<Time>, resolvedAt: Option<Time>,
    created: Option<ObjectId>, error: ItemError)

  datatype TargetType = UseCase | ValueStream

  datatype BatchStatus = Open | Processing | Committed | BatchRejected | Conflict | Stale | Failed

  /** One entry of the hashed graph document. */
  datatype Entry = Entry(
    localKey: string, kind: Kind, targetPath: string, groupKey: string, dependencyKey: string,
    status: ItemStatus, decision: Decision, proposed: Fields, stageReference: Option<StageReference>,
    interpretation: Interpretation, decisionSnapshot: DecisionSnapshot, fieldHash: Option<Cell>,
    source: Source, confirmedBy: Option<Actor>)

  /** A SHA-256 digest is represented by the document it is taken of; distinct documents, distinct digests. */
  datatype GraphHash = NoGraph | GraphHash(entries: seq<Entry>)

  /** What never changes after a batch is created. */
  datatype Header = Header(
    session: nat, analysis: nat, targetType: TargetType, target: nat, createdBy: Actor,
    sourceRevision: nat, interpretationVersion: string)

  datatype IdempotencyKey =
    | Placeholder
    | IdempotencyKey(session: nat, analysis: nat, targetType: TargetType, target: nat, graph: GraphHash, version: string)

  datatype ResultSnapshot =
    | NoResult
    | MetricResult(attempt: nat, effective: Fields, sources: map<string, Decision>, changed: set<string>)
    | StreamResult(attempt: nat, stages: map<string, ObjectId>, processes: map<string, ProcessResult>)

  datatype ProcessResult = ProcessResult(process: ObjectId, stage: ObjectId)

  datatype Batch = Batch(
    key: IdempotencyKey, graph: GraphHash, status: BatchStatus, processingBy: Option<Actor>,
    completedAt: Option<Time>, attempts: nat, result: ResultSnapshot, error: Option<CommitError>)

  /** The error codes of a commit, grouped where the batch status they lead to is the same. */
  datatype CommitError =
    | KeyMismatch | ReservationLost | TargetMissing | PermissionDenied | SessionStale | AnalysisStale
    | GraphRefused | DomainConflict | DomainInvalid | Unexpected

  datatype StageRow = StageRow(sequence: int, fields: Fields)
  datatype ProcessRow = ProcessRow(stage: ObjectId, fields: Fields, item: ItemId, analyzedBy: Option<Actor>)

  /** The part of the domain the batch may write: the stages and processes of the bound value stream, or
      the metric fields of the bound use case. `nextId` stands for the random ids not yet taken. */
  datatype Domain = Domain(
    stages: map<ObjectId, StageRow>, processes: map<ObjectId, ProcessRow>, metrics: Fields, nextId: ObjectId)

  datatype AuditEvent = CreatedEvent | ConfirmedEvent | RejectedEvent | CommittedEvent | ConflictEvent | FailedEvent

  datatype Audit = Audit(event: AuditEvent, actor: Actor, item: Option<ItemId>, key: IdempotencyKey, attempt: nat)

  type Items = map<ItemId, Item>

  datatype State = State(batch: Batch, items: Items, domain: Domain, audits: seq<Audit>)

  /** Everything one transaction reads besides these rows: form checks, permissions, the bound objects. */
  datatype World = World(
    now: Time,
    targetExists: bool,
    canEdit: Actor -> bool,
    sessionCurrent: bool,
    analysisCurrent: bool,
    captureVanished: bool,
    uncertain: ItemId -> bool,
    normalizeMetric: (string, Cell) -> Option<Cell>,
    normalizeFields: (Kind, Fields) -> Option<Fields>,
    stageForm: Fields -> Option<Fields>,
    processForm: Fields -> Option<Fields>,
    metricForm: Fields -> Option<Fields>)

  // ---- the sealed graph

  function EntryOf(i: Item): Entry {
    Entry(i.localKey, i.kind, i.targetPath, i.groupKey, i.dependencyKey, i.status, i.decision, i.proposed,
      i.stageReference, i.interpretation, i.decisionSnapshot, i.fieldHash, i.source, i.confirmedBy)
  }

  /** The items of a batch in the order of their local keys. */
  ghost predicate IsOrder(order: seq<ItemId>, items: Items) {
    && (forall i, j | 0 <= i < j < |order| :: order[i] != order[j])
    && (forall id :: id in order <==> id in items)
  }

  ghost predicate LocalKeysUnique(items: Items) {
    forall a, b | a in items && b in items && items[a].localKey == items[b].localKey :: a == b
  }

  function GraphOf(order: seq<ItemId>, items: Items): seq<Entry>
    requires IsOrder(order, items)
  {
    seq(|order|, i requires 0 <= i < |order| => assert order[i] in order; EntryOf(items[order[i]]))
  }

  function KeyOf(h: Header, graph: GraphHash): IdempotencyKey {
    IdempotencyKey(h.session, h.analysis, h.targetType, h.target, graph, h.interpretationVersion)
  }

  // ---- the status sets of the source

  predicate Selected(d: Decision) { d.ConfirmedProposal? || d.ConfirmedEdited? || d.CurrentDatabase? }

  predicate ConfirmedDecision(d: Decision) { d.ConfirmedProposal? || d.ConfirmedEdited? }

  /** Stage states a process item may not be bound to. */
  predicate InvalidDependency(s: ItemStatus) {
    s.ItemRejected? || s.Ambiguous? || s.Invalid? || s.DependencyInvalid? || s.ItemConflict? || s.ItemStale?
    || s.ItemFailed?
  }
}
