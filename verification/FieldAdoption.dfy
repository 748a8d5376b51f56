/** Field-wise adoption of suggested values: the candidate rows, their transactions and their rules. */
module FieldAdoption {
  import opened Options
  import opened Canonical

  datatype Status =
    | Open | Processing
    | Adopted | AdoptedEdited | Rejected | Conflict | Superseded | Stale | Failed

  datatype Code =
    | NoCode | FieldConflict | TargetMissingCode | TargetInactiveCode | PermissionCode | ValidationCode
    | ActionCode | StaleCandidate | IntegrityFailed | UnsupportedField | ConflictDiscarded | SupersededByNew

  datatype Outcome =
    | OAdopted | OAdoptedEdited | ORejected | OConflict | OStale | OTargetMissing | OTargetInactive
    | OPermissionDenied | OValidationFailed | OActionNotAllowed | OInProgress | OFailed

  datatype Action = Adopt | Reject
  datatype Request = Direct | Edited | RejectRequest
  datatype Uncertainty = Low | Medium | High | Unknown

  /** One suggestion has at most one candidate, so a candidate is identified by its suggestion. */
  type CandidateId = nat
  type TargetId = nat
  type Actor = nat

  /** A hash of a canonical text is represented by the text: distinct texts have distinct hashes. */
  datatype Snapshot = Snapshot(
    target: TargetId, field: string, proposed: string, previous: string, previousHash: string,
    targetUpdatedAt: int)

  datatype Candidate = Candidate(snap: Snapshot, status: Status, processingBy: Option<Actor>, code: Code)

  datatype Target = Target(fields: map<string, string>, active: bool, updatedAt: int)

  datatype Audit = Audit(
    actor: Actor, action: Action, outcome: Outcome, code: Code, current: string, final: string,
    edited: string, updatedAtChanged: bool)

  datatype State = State(
    candidates: map<CandidateId, Candidate>, targets: map<TargetId, Target>, audits: map<CandidateId, Audit>)

  /** The value the caller submits instead of the proposal; it need not be text. */
  datatype Submitted = Text(text: string) | NotText

  /** What the regular model form makes of a payload: errors, or the whole field state it would save. */
  datatype FormResult = FormResult(errors: bool, after: map<string, string>)

  /** Everything one call reads besides the three tables. */
  datatype World = World(
    enabled: bool,
    now: int,
    nfc: string -> string,
    supported: CandidateId -> bool,
    intact: CandidateId -> bool,
    current: CandidateId -> bool,
    uncertainty: CandidateId -> Uncertainty,
    canEdit: (Actor, TargetId) -> bool,
    form: (Target, string, string) -> FormResult)

  datatype Result = Result(
    outcome: Outcome, previous: string, current: string, proposed: string, final: string,
    updatedAtChanged: bool, idempotent: bool)

  datatype Response = Disabled | NotFound | Answer(result: Result)

  // ---- rules that only compute

  predicate Terminal(s: Status) { s != Open && s != Processing }

  predicate ActionAllowed(u: Uncertainty, r: Request) {
    match u
    case Low => true
    case Medium => r != Direct
    case High => r == RejectRequest
    case Unknown => false
  }

  function Value(t: Target, field: string): string {
    if field in t.fields then t.fields[field] else ""
  }

  function TextHash(w: World, text: string): string {
    Canonicalize(w.nfc, text)
  }

  function RequestedAction(w: World, c: Snapshot, edited: Option<Submitted>): Request {
    match edited
    case None => Direct
    case Some(NotText) => Edited
    case Some(Text(t)) => if Canonicalize(w.nfc, t) == c.proposed then Direct else Edited
  }

  function EditedText(w: World, edited: Option<Submitted>): string {
    if edited.Some? && edited.value.Text? then Canonicalize(w.nfc, edited.value.text) else ""
  }

  function ChangedFields(t: Target, after: map<string, string>): set<string> {
    set f | f in t.fields.Keys + after.Keys && Value(t, f) != (if f in after then after[f] else "")
  }

  /** `PreparedFieldUpdate.is_valid` */
  predicate UpdateValid(t: Target, field: string, r: FormResult) {
    !r.errors && field in r.after && ChangedFields(t, r.after) == {field}
  }

  /** The outcome a stored candidate answers a repeated call with: its code first, then its status. */
  function StoredOutcome(c: Candidate): Outcome {
    match c.code
    case FieldConflict => OConflict
    case TargetMissingCode => OTargetMissing
    case TargetInactiveCode => OTargetInactive
    case PermissionCode => OPermissionDenied
    case ValidationCode => OValidationFailed
    case ActionCode => OActionNotAllowed
    case _ =>
      match c.status
      case Adopted => OAdopted
      case AdoptedEdited => OAdoptedEdited
      case Rejected => ORejected
      case Conflict => OConflict
      case Stale => OStale
      case Processing => OInProgress
      case _ => OFailed
  }

  function StoredResult(c: Candidate): Result {
    Result(StoredOutcome(c), c.snap.previous, "", c.snap.proposed, "", false, true)
  }

  // ---- what a call on an open candidate decides

  /** How a reserved candidate is completed, what its audit records and what is written to the target. */
  datatype Resolution = Resolution(
    status: Status, outcome: Outcome, code: Code, current: string, final: string, edited: string,
    touched: bool, write: Option<string>)

  function Refusal(status: Status, outcome: Outcome, code: Code): Resolution {
    Resolution(status, outcome, code, "", "", "", false, None)
  }

  /** The checks of `candidate_validity`. */
  function Validity(w: World, t: Target, id: CandidateId): Option<Resolution> {
    if !t.active then Some(Refusal(Stale, OTargetInactive, TargetInactiveCode))
    else if !w.current(id) then Some(Refusal(Stale, OStale, StaleCandidate))
    else None
  }

  /** The checks adopting and rejecting share, up to and including permission. */
  function Gate(w: World, s: State, id: CandidateId, actor: Actor, request: Request): Option<Resolution>
    requires id in s.candidates
  {
    var target := s.candidates[id].snap.target;
    if !w.supported(id) then Some(Refusal(Failed, OFailed, UnsupportedField))
    else if target !in s.targets then Some(Refusal(Stale, OTargetMissing, TargetMissingCode))
    else if !w.intact(id) then Some(Refusal(Stale, OStale, IntegrityFailed))
    else if !ActionAllowed(w.uncertainty(id), request) then Some(Refusal(Failed, OActionNotAllowed, ActionCode))
    else
      match Validity(w, s.targets[target], id)
      case Some(refusal) => Some(refusal)
      case None =>
        if !w.canEdit(actor, target) then Some(Refusal(Failed, OPermissionDenied, PermissionCode)) else None
  }

  /** Compare before write: the decision once every gate has passed. */
  function CompareAndWrite(w: World, t: Target, c: Snapshot, edited: Option<Submitted>): Resolution {
    var current := Canonicalize(w.nfc, Value(t, c.field));
    var touched := t.updatedAt != c.targetUpdatedAt;
    if TextHash(w, current) != c.previousHash then
      Resolution(Conflict, OConflict, FieldConflict, current, "", "", touched, None)
    else
      WriteDecision(w, t, c, edited, current, touched)
  }

  /** The decision for a field that still has the value of the snapshot. */
  function WriteDecision(w: World, t: Target, c: Snapshot, edited: Option<Submitted>, current: string, touched: bool)
    : Resolution
  {
    if edited == Some(NotText) then
      Resolution(Failed, OValidationFailed, ValidationCode, current, "", "", touched, None)
    else
      var final := Canonicalize(w.nfc, if edited == None then c.proposed else edited.value.text);
      var changed := edited != None && final != c.proposed;
      var status := if changed then AdoptedEdited else Adopted;
      var outcome := if changed then OAdoptedEdited else OAdopted;
      var text := EditedText(w, edited);
      if TextHash(w, final) == TextHash(w, current) then
        Resolution(status, outcome, NoCode, current, current, text, touched, None)
      else
        var form := w.form(t, c.field, final);
        if !UpdateValid(t, c.field, form) then
          Resolution(Failed, OValidationFailed, ValidationCode, current, "", text, touched, None)
        else
          var cleaned := form.after[c.field];
          Resolution(status, outcome, NoCode, current, Canonicalize(w.nfc, cleaned), text, touched, Some(cleaned))
  }

  function AdoptDecision(w: World, s: State, id: CandidateId, actor: Actor, edited: Option<Submitted>): Resolution
    requires id in s.candidates
  {
    var c := s.candidates[id].snap;
    match Gate(w, s, id, actor, RequestedAction(w, c, edited))
    case Some(refusal) => refusal
    case None => CompareAndWrite(w, s.targets[c.target], c, edited)
  }

  /** Rejecting asks for the action first and then passes the same checks. */
  function RejectDecision(w: World, s: State, id: CandidateId, actor: Actor): Resolution
    requires id in s.candidates
  {
    var c := s.candidates[id].snap;
    if !ActionAllowed(w.uncertainty(id), RejectRequest) then Refusal(Failed, OActionNotAllowed, ActionCode)
    else
      match Gate(w, s, id, actor, RejectRequest)
      case Some(refusal) => refusal
      case None =>
        Resolution(Rejected, ORejected, NoCode, Canonicalize(w.nfc, Value(s.targets[c.target], c.field)),
          "", "", false, None)
  }

  function WriteField(t: Target, field: string, value: string, now: int): Target {
    t.(fields := t.fields[field := value], updatedAt := now)
  }

  function AuditOf(w: World, actor: Actor, action: Action, r: Resolution): Audit {
    var stored := if r.outcome in {OAdopted, OAdoptedEdited} then r.final else r.current;
    Audit(actor, action, r.outcome, r.code, Canonicalize(w.nfc, r.current), Canonicalize(w.nfc, stored),
      r.edited, r.touched)
  }

  function ResolutionResult(c: Snapshot, r: Resolution): Result {
    Result(r.outcome, c.previous, r.current, c.proposed, r.final, r.touched, false)
  }

  // ---- the transactions as state changes

  function Resolve(w: World, s: State, id: CandidateId, actor: Actor, action: Action, r: Resolution): State
    requires id in s.candidates
  {
    var c := s.candidates[id];
    var t := c.snap.target;
    State(
      s.candidates[id := Candidate(c.snap, r.status, Some(actor), r.code)],
      if r.write.Some? && t in s.targets
      then s.targets[t := WriteField(s.targets[t], c.snap.field, r.write.value, w.now)] else s.targets,
      if id in s.audits then s.audits else s.audits[id := AuditOf(w, actor, action, r)])
  }

  function AdoptTransaction(w: World, s: State, id: CandidateId, actor: Actor, edited: Option<Submitted>)
    : (State, Response)
  {
    if !w.enabled then (s, Disabled)
    else if id !in s.candidates then (s, NotFound)
    else if s.candidates[id].status != Open then (s, Answer(StoredResult(s.candidates[id])))
    else
      var r := AdoptDecision(w, s, id, actor, edited);
      (Resolve(w, s, id, actor, Adopt, r), Answer(ResolutionResult(s.candidates[id].snap, r)))
  }

  function RejectTransaction(w: World, s: State, id: CandidateId, actor: Actor): (State, Response) {
    if !w.enabled then (s, Disabled)
    else if id !in s.candidates then (s, NotFound)
    else if s.candidates[id].status == Conflict then DiscardConflict(w, s, id, actor)
    else if s.candidates[id].status != Open then (s, Answer(StoredResult(s.candidates[id])))
    else
      var r := RejectDecision(w, s, id, actor);
      (Resolve(w, s, id, actor, Reject, r), Answer(ResolutionResult(s.candidates[id].snap, r)))
  }

  /** Discarding a conflict rejects the candidate without a second audit and without touching the target. */
  function DiscardConflict(w: World, s: State, id: CandidateId, actor: Actor): (State, Response)
    requires id in s.candidates
  {
    var c := s.candidates[id];
    var t := c.snap.target;
    if !w.supported(id) then (s, Answer(StoredResult(c)))
    else if t in s.targets && !w.canEdit(actor, t) then
      (s, Answer(Result(OPermissionDenied, c.snap.previous, "", c.snap.proposed, "", false, false)))
    else
      (s.(candidates := s.candidates[id := c.(status := Rejected, code := ConflictDiscarded)]),
        Answer(Result(ORejected, c.snap.previous,
          if t in s.targets then Canonicalize(w.nfc, Value(s.targets[t], c.snap.field)) else "",
          c.snap.proposed, "", false, false)))
  }

  /** A text suggestion of an analysis; `field` is the adoptable model field it resolves to, if any. */
  datatype Suggestion = Suggestion(id: CandidateId, field: Option<string>, value: Submitted)

  predicate SameField(c: Snapshot, target: TargetId, field: string) {
    c.target == target && c.field == field
  }

  function SupersedeOpen(cs: map<CandidateId, Candidate>, target: TargetId, field: string, exclude: CandidateId)
    : map<CandidateId, Candidate>
  {
    map id | id in cs ::
      if cs[id].status == Open && SameField(cs[id].snap, target, field) && id != exclude
      then cs[id].(status := Superseded, code := SupersededByNew) else cs[id]
  }

  function NewCandidate(w: World, target: TargetId, t: Target, field: string, proposed: string): Candidate {
    var raw := Value(t, field);
    Candidate(
      Snapshot(target, field, Canonicalize(w.nfc, proposed), Canonicalize(w.nfc, raw), TextHash(w, raw), t.updatedAt),
      Open, None, NoCode)
  }

  /** One round of the creation loop; a suggestion that needs a candidate but carries no text is an error. */
  function CreateOne(w: World, cs: map<CandidateId, Candidate>, target: TargetId, t: Target, g: Suggestion)
    : Option<map<CandidateId, Candidate>>
  {
    if g.field == None || g.id in cs then Some(cs)
    else if g.value == NotText then None
    else
      Some(SupersedeOpen(cs, target, g.field.value, g.id)
        [g.id := NewCandidate(w, target, t, g.field.value, g.value.text)])
  }

  function CreateAll(w: World, cs: map<CandidateId, Candidate>, target: TargetId, t: Target, gs: seq<Suggestion>)
    : Option<map<CandidateId, Candidate>>
    decreases |gs|
  {
    if gs == [] then Some(cs)
    else
      match CreateOne(w, cs, target, t, gs[0])
      case None => None
      case Some(cs') => CreateAll(w, cs', target, t, gs[1..])
  }

  /** Creation is refused before it starts, or as a whole when one suggestion is in error. */
  function CreateTransaction(w: World, s: State, target: TargetId, analysisUsable: bool, gs: seq<Suggestion>): State {
    if !analysisUsable || target !in s.targets || !s.targets[target].active then s
    else
      match CreateAll(w, s.candidates, target, s.targets[target], gs)
      case None => s
      case Some(cs) => s.(candidates := cs)
  }

  // ---- the tables and the code that updates them

  class Store {
    var candidates: map<CandidateId, Candidate>
    var targets: map<TargetId, Target>
    var audits: map<CandidateId, Audit>

    ghost function Rows(): State
      reads this
    {
      State(candidates, targets, audits)
    }

    constructor (targets: map<TargetId, Target>)
      ensures Rows() == State(map[], targets, map[])
    {
      this.targets := targets;
      candidates := map[];
      audits := map[];
    }

    method ReserveCandidate(id: CandidateId, actor: Actor) returns (acquired: bool)
      requires id in candidates
      modifies this`candidates
      ensures acquired <==> old(candidates)[id].status == Open
      ensures candidates == if acquired
                then old(candidates)[id := Candidate(old(candidates)[id].snap, Processing, Some(actor), NoCode)]
                else old(candidates)
    {
      acquired := candidates[id].status == Open;
      if acquired {
        candidates := candidates[id := candidates[id].(
          status := Processing, processingBy := Some(actor), code := NoCode)];
      }
    }

    /** The conditional update, and the error unless it hit or the status is already the wanted one. */
    method CompleteCandidate(id: CandidateId, actor: Actor, status: Status, code: Code) returns (ok: bool)
      requires id in candidates
      modifies this`candidates
      ensures var c := old(candidates)[id];
              var held := Terminal(status) && c.status == Processing && c.processingBy == Some(actor);
              && candidates == (if held then old(candidates)[id := c.(status := status, code := code)] else old(candidates))
              && (ok <==> Terminal(status) && (held || c.status == status))
    {
      if !Terminal(status) {
        return false;
      }
      var c := candidates[id];
      if c.status == Processing && c.processingBy == Some(actor) {
        candidates := candidates[id := c.(status := status, code := code)];
      }
      ok := candidates[id].status == status;
    }

    /** `get_or_create` on the candidate id: the first record stays. */
    method RecordAudit(w: World, id: CandidateId, actor: Actor, action: Action, r: Resolution)
      modifies this`audits
      ensures audits == if id in old(audits) then old(audits) else old(audits)[id := AuditOf(w, actor, action, r)]
    {
      if id !in audits {
        audits := audits[id := AuditOf(w, actor, action, r)];
      }
    }

    method CompleteResult(w: World, id: CandidateId, actor: Actor, action: Action, r: Resolution)
      returns (answer: Response)
      requires id in candidates && Terminal(r.status)
      requires candidates[id].status == Processing && candidates[id].processingBy == Some(actor)
      modifies this`candidates, this`audits
      ensures candidates == old(candidates)[id := Candidate(old(candidates)[id].snap, r.status, Some(actor), r.code)]
      ensures audits == if id in old(audits) then old(audits) else old(audits)[id := AuditOf(w, actor, action, r)]
      ensures answer == Answer(ResolutionResult(candidates[id].snap, r))
    {
      var ok := CompleteCandidate(id, actor, r.status, r.code);
      RecordAudit(w, id, actor, action, r);
      answer := Answer(ResolutionResult(candidates[id].snap, r));
    }

    method AdoptFieldCandidate(w: World, id: CandidateId, actor: Actor, edited: Option<Submitted>)
      returns (answer: Response)
      modifies this
      ensures (Rows(), answer) == AdoptTransaction(w, old(Rows()), id, actor, edited)
    {
      hide Canonicalize;
      hide CompareAndWrite;
      hide AuditOf;
      hide ResolutionResult;
      if !w.enabled {
        return Disabled;
      }
      if id !in candidates {
        return NotFound;
      }
      var acquired := ReserveCandidate(id, actor);
      if !acquired {
        return Answer(StoredResult(candidates[id]));
      }
      var c := candidates[id].snap;
      assert forall x {:trigger candidates[id := x]} :: candidates[id := x] == old(candidates)[id := x];
      if !w.supported(id) {
        answer := CompleteResult(w, id, actor, Adopt, Refusal(Failed, OFailed, UnsupportedField));
        return;
      }
      if c.target !in targets {
        answer := CompleteResult(w, id, actor, Adopt, Refusal(Stale, OTargetMissing, TargetMissingCode));
        return;
      }
      if !w.intact(id) {
        answer := CompleteResult(w, id, actor, Adopt, Refusal(Stale, OStale, IntegrityFailed));
        return;
      }
      if !ActionAllowed(w.uncertainty(id), RequestedAction(w, c, edited)) {
        answer := CompleteResult(w, id, actor, Adopt, Refusal(Failed, OActionNotAllowed, ActionCode));
        return;
      }
      var t := targets[c.target];
      var invalid := Validity(w, t, id);
      if invalid.Some? {
        answer := CompleteResult(w, id, actor, Adopt, invalid.value);
        return;
      }
      if !w.canEdit(actor, c.target) {
        answer := CompleteResult(w, id, actor, Adopt, Refusal(Failed, OPermissionDenied, PermissionCode));
        return;
      }
      answer := CompareThenWrite(w, id, actor, edited);
    }

    /** The part of adoption after the gates: the conflict check, and then form and write. */
    method CompareThenWrite(w: World, id: CandidateId, actor: Actor, edited: Option<Submitted>)
      returns (answer: Response)
      requires id in candidates && candidates[id].snap.target in targets
      requires candidates[id].status == Processing && candidates[id].processingBy == Some(actor)
      modifies this
      ensures var c := old(candidates)[id].snap;
              var r := CompareAndWrite(w, old(targets)[c.target], c, edited);
              Rows() == Resolve(w, old(Rows()), id, actor, Adopt, r) && answer == Answer(ResolutionResult(c, r))
    {
      hide Canonicalize;
      hide WriteDecision;
      hide AuditOf;
      var c := candidates[id].snap;
      var t := targets[c.target];
      var current := Canonicalize(w.nfc, Value(t, c.field));
      var touched := t.updatedAt != c.targetUpdatedAt;
      if TextHash(w, current) != c.previousHash {
        answer := CompleteResult(w, id, actor, Adopt,
          Resolution(Conflict, OConflict, FieldConflict, current, "", "", touched, None));
        return;
      }
      answer := WriteUnlessSame(w, id, actor, edited, current, touched);
    }

    /** Nothing to write if the canonical value stays; otherwise the form decides. */
    method WriteUnlessSame(w: World, id: CandidateId, actor: Actor, edited: Option<Submitted>, current: string, touched: bool)
      returns (answer: Response)
      requires id in candidates && candidates[id].snap.target in targets
      requires candidates[id].status == Processing && candidates[id].processingBy == Some(actor)
      modifies this
      ensures var c := old(candidates)[id].snap;
              var r := WriteDecision(w, old(targets)[c.target], c, edited, current, touched);
              Rows() == Resolve(w, old(Rows()), id, actor, Adopt, r) && answer == Answer(ResolutionResult(c, r))
    {
      hide Canonicalize;
      hide AuditOf;
      hide UpdateValid;
      var c := candidates[id].snap;
      var t := targets[c.target];
      if edited == Some(NotText) {
        answer := CompleteResult(w, id, actor, Adopt,
          Resolution(Failed, OValidationFailed, ValidationCode, current, "", "", touched, None));
        return;
      }
      var text := EditedText(w, edited);
      var final := Canonicalize(w.nfc, if edited == None then c.proposed else edited.value.text);
      var status, outcome := Adopted, OAdopted;
      if edited != None && final != c.proposed {
        status, outcome := AdoptedEdited, OAdoptedEdited;
      }
      if TextHash(w, final) == TextHash(w, current) {
        answer := CompleteResult(w, id, actor, Adopt,
          Resolution(status, outcome, NoCode, current, current, text, touched, None));
        return;
      }
      var prepared := w.form(t, c.field, final);
      if !UpdateValid(t, c.field, prepared) {
        answer := CompleteResult(w, id, actor, Adopt,
          Resolution(Failed, OValidationFailed, ValidationCode, current, "", text, touched, None));
        return;
      }
      assert c.field in prepared.after by { ValidHasField(t, c.field, prepared); }
      var cleaned := prepared.after[c.field];
      targets := targets[c.target := WriteField(t, c.field, cleaned, w.now)];
      var stored := Canonicalize(w.nfc, Value(targets[c.target], c.field));
      answer := CompleteResult(w, id, actor, Adopt,
        Resolution(status, outcome, NoCode, current, stored, text, touched, Some(cleaned)));
    }

    lemma ValidHasField(t: Target, field: string, r: FormResult)
      requires UpdateValid(t, field, r)
      ensures field in r.after
    {
    }

    method RejectFieldCandidate(w: World, id: CandidateId, actor: Actor) returns (answer: Response)
      modifies this
      ensures (Rows(), answer) == RejectTransaction(w, old(Rows()), id, actor)
    {
      if !w.enabled {
        return Disabled;
      }
      if id !in candidates {
        return NotFound;
      }
      var acquired := ReserveCandidate(id, actor);
      if !acquired {
        if candidates[id].status == Conflict {
          answer := DiscardConflictCandidate(w, id, actor);
        } else {
          answer := Answer(StoredResult(candidates[id]));
        }
        return;
      }
      var c := candidates[id].snap;
      assert forall x {:trigger candidates[id := x]} :: candidates[id := x] == old(candidates)[id := x];
      if !ActionAllowed(w.uncertainty(id), RejectRequest) {
        answer := CompleteResult(w, id, actor, Reject, Refusal(Failed, OActionNotAllowed, ActionCode));
        return;
      }
      if !w.supported(id) {
        answer := CompleteResult(w, id, actor, Reject, Refusal(Failed, OFailed, UnsupportedField));
        return;
      }
      if c.target !in targets {
        answer := CompleteResult(w, id, actor, Reject, Refusal(Stale, OTargetMissing, TargetMissingCode));
        return;
      }
      if !w.intact(id) {
        answer := CompleteResult(w, id, actor, Reject, Refusal(Stale, OStale, IntegrityFailed));
        return;
      }
      var invalid := Validity(w, targets[c.target], id);
      if invalid.Some? {
        answer := CompleteResult(w, id, actor, Reject, invalid.value);
        return;
      }
      if !w.canEdit(actor, c.target) {
        answer := CompleteResult(w, id, actor, Reject, Refusal(Failed, OPermissionDenied, PermissionCode));
        return;
      }
      var current := Canonicalize(w.nfc, Value(targets[c.target], c.field));
      answer := CompleteResult(w, id, actor, Reject,
        Resolution(Rejected, ORejected, NoCode, current, "", "", false, None));
    }

    method DiscardConflictCandidate(w: World, id: CandidateId, actor: Actor) returns (answer: Response)
      requires id in candidates && candidates[id].status == Conflict
      modifies this`candidates
      ensures (Rows(), answer) == DiscardConflict(w, old(Rows()), id, actor)
    {
      var c := candidates[id].snap;
      if !w.supported(id) {
        return Answer(StoredResult(candidates[id]));
      }
      if c.target in targets && !w.canEdit(actor, c.target) {
        return Answer(Result(OPermissionDenied, c.previous, "", c.proposed, "", false, false));
      }
      candidates := candidates[id := candidates[id].(status := Rejected, code := ConflictDiscarded)];
      var current := "";
      if c.target in targets {
        current := Canonicalize(w.nfc, Value(targets[c.target], c.field));
      }
      return Answer(Result(ORejected, c.previous, current, c.proposed, "", false, false));
    }

    method SupersedeOpenCandidates(target: TargetId, field: string, exclude: CandidateId)
      modifies this`candidates
      ensures candidates == SupersedeOpen(old(candidates), target, field, exclude)
      ensures forall id | id in candidates && SameField(candidates[id].snap, target, field) && id != exclude ::
                candidates[id].status != Open
    {
      candidates := map id | id in candidates ::
        if candidates[id].status == Open && SameField(candidates[id].snap, target, field) && id != exclude
        then candidates[id].(status := Superseded, code := SupersededByNew) else candidates[id];
    }

    /** One transaction over the suggestions of an analysis; an error restores every candidate. */
    method CreateAdoptionCandidates(w: World, target: TargetId, analysisUsable: bool, gs: seq<Suggestion>)
      returns (ok: bool)
      modifies this`candidates
      ensures Rows() == CreateTransaction(w, old(Rows()), target, analysisUsable, gs)
      ensures !ok ==> Rows() == old(Rows())
    {
      var saved := candidates;
      if !analysisUsable || target !in targets || !targets[target].active {
        return false;
      }
      var t := targets[target];
      for i := 0 to |gs|
        invariant CreateAll(w, saved, target, t, gs) == CreateAll(w, candidates, target, t, gs[i..])
      {
        hide Canonicalize;
        hide SupersedeOpen;
        var g := gs[i];
        assert gs[i..][1..] == gs[i + 1..];
        if g.field == None || g.id in candidates {
          continue;
        }
        if g.value == NotText {
          candidates := saved;
          return false;
        }
        SupersedeOpenCandidates(target, g.field.value, g.id);
        candidates := candidates[g.id := NewCandidate(w, target, t, g.field.value, g.value.text)];
      }
      return true;
    }
  }
}
