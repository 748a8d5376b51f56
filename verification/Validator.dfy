/** The validator of generated payloads: every check appends to one shared list of errors. */
module Validator {
  import opened Texts
  import opened Payloads
  import opened PayloadProofs

  datatype Step = Member(name: Name) | Index(index: nat)

  datatype Fault =
    | ObjectExpected | ListExpected | TextExpected | UnknownMembers(names: set<Name>) | MissingMembers(names: set<Name>)
    | UnsupportedVersion | DuplicateSource | UnknownSource(id: string) | UnknownLevel(level: string)
    | NoProvenance | UnsupportedNumbers(tokens: set<Token>) | SameNames | SameContents
    | UnknownOption(text: string) | UnknownField(text: string) | DuplicateTarget(target: Target)
    | UnplannedTarget(target: Target) | MissingTarget(target: Target) | WrongPatchCount

  datatype Issue = Issue(path: seq<Step>, fault: Fault)

  class ErrorLog {
    var issues: seq<Issue>

    constructor ()
      ensures issues == []
    {
      issues := [];
    }

    method Append(path: seq<Step>, fault: Fault)
      modifies this
      ensures issues == old(issues) + [Issue(path, fault)]
    {
      issues := issues + [Issue(path, fault)];
    }
  }

  /** What was reported so far stays reported, and something is added exactly if the check failed. */
  twostate predicate Reports(log: ErrorLog, ok: bool)
    reads log
  {
    old(log.issues) <= log.issues && (|log.issues| == old(|log.issues|) <==> ok)
  }

  // ---- the elementary checks

  method ExactFields(m: map<Name, Json>, allowed: set<Name>, path: seq<Step>, log: ErrorLog)
    modifies log
    ensures Reports(log, m.Keys == allowed)
  {
    var unexpected, missing := m.Keys - allowed, allowed - m.Keys;
    if unexpected != {} {
      log.Append(path, UnknownMembers(unexpected));
    }
    if missing != {} {
      log.Append(path, MissingMembers(missing));
    }
  }

  method AsDict(j: Json, path: seq<Step>, log: ErrorLog) returns (m: map<Name, Json>)
    modifies log
    ensures m == Members(j) && Reports(log, j.Obj?)
  {
    if j.Obj? {
      return j.members;
    }
    log.Append(path, ObjectExpected);
    return map[];
  }

  method AsList(j: Json, path: seq<Step>, log: ErrorLog) returns (items: seq<Json>)
    modifies log
    ensures items == (if j.List? then j.items else []) && Reports(log, j.List?)
  {
    if j.List? {
      return j.items;
    }
    log.Append(path, ListExpected);
    return [];
  }

  method NonemptyText(j: Json, path: seq<Step>, log: ErrorLog) returns (text: string)
    modifies log
    ensures text == CleanText(j) && Reports(log, TextOk(j))
  {
    if !j.Str? || Strip(j.s) == "" {
      log.Append(path, TextExpected);
      return "";
    }
    return Strip(j.s);
  }

  method StringList(j: Json, path: seq<Step>, log: ErrorLog) returns (result: seq<string>)
    modifies log
    ensures result == CleanList(j) && Reports(log, ListOk(j))
  {
    hide TextOk;
    hide CleanText;
    var items := AsList(j, path, log);
    result := [];
    for n := 0 to |items|
      invariant result == CleanItems(items[..n])
      invariant Reports(log, j.List? && forall i | 0 <= i < n :: TextOk(items[i]))
    {
      var cleaned := NonemptyText(items[n], path + [Index(n)], log);
      assert items[..n + 1][..n] == items[..n];
      if cleaned != "" {
        result := result + [cleaned];
      }
    }
    assert items[..|items|] == items;
  }

  // ---- one statement

  /** Every number of the text must occur in one of the cited sources. */
  method ValidateNumericClaims(rules: Rules, text: string, ids: seq<string>, sources: Sources, path: seq<Step>, log: ErrorLog)
    modifies log
    ensures Reports(log, rules.tokens(text) <= Supported(rules, sources, ids))
  {
    var generated := rules.tokens(text);
    if generated == {} {
      return;
    }
    var supported: set<Token> := {};
    for n := 0 to |ids|
      invariant supported == Supported(rules, sources, ids[..n]) && log.issues == old(log.issues)
    {
      SupportedGrows(rules, sources, ids, n);
      supported := supported + rules.tokens(SourceValue(sources, ids[n]));
    }
    assert ids[..|ids|] == ids;
    var unsupported := generated - supported;
    assert forall t | t in generated :: t in unsupported || t in supported;
    if unsupported != {} {
      log.Append(path, UnsupportedNumbers(unsupported));
    }
  }

  lemma SupportedGrows(rules: Rules, sources: Sources, ids: seq<string>, n: nat)
    requires n < |ids|
    ensures Supported(rules, sources, ids[..n + 1]) == Supported(rules, sources, ids[..n]) + rules.tokens(SourceValue(sources, ids[n]))
  {
    assert forall i | 0 <= i < n :: ids[..n + 1][i] == ids[..n][i];
    assert ids[..n + 1][n] == ids[n];
  }

  lemma {:induction false} DistinctBySize<T(!new)>(xs: seq<T>)
    ensures |set x | x in xs| <= |xs|
    ensures |set x | x in xs| == |xs| <==> forall i, j | 0 <= i < j < |xs| :: xs[i] != xs[j]
  {
    if xs != [] {
      var n := |xs| - 1;
      var front := set x | x in xs[..n];
      DistinctBySize(xs[..n]);
      if xs[n] in xs[..n] {
        assert (set x | x in xs) == front;
      } else {
        assert (set x | x in xs) == front + {xs[n]};
      }
    }
  }

  /** The source ids are distinct and known. */
  method CheckSources(ids: seq<string>, sources: Sources, path: seq<Step>, log: ErrorLog)
    modifies log
    ensures Reports(log, NoDuplicates(ids) && forall id | id in ids :: id in sources)
  {
    DistinctBySize(ids);
    if |ids| != |set id | id in ids| {
      log.Append(path, DuplicateSource);
    }
    for n := 0 to |ids|
      invariant Reports(log, NoDuplicates(ids) && forall i | 0 <= i < n :: ids[i] in sources)
    {
      if ids[n] !in sources {
        log.Append(path, UnknownSource(ids[n]));
      }
    }
  }

  method ValidateUncertainty(j: Json, path: seq<Step>, log: ErrorLog) returns (level: string, reason: string)
    modifies log
    ensures level == CleanText(Get(Members(j), Level)) && reason == CleanText(Get(Members(j), Reason))
    ensures Reports(log, j.Obj? && j.members.Keys == UncertaintyNames() && TextOk(Get(j.members, Level))
                         && TextOk(Get(j.members, Reason)) && KnownLevel(level))
  {
    var m := AsDict(j, path, log);
    ExactFields(m, UncertaintyNames(), path, log);
    level := NonemptyText(Get(m, Level), path + [Member(Level)], log);
    reason := NonemptyText(Get(m, Reason), path + [Member(Reason)], log);
    if level != "" && !KnownLevel(level) {
      log.Append(path + [Member(Level)], UnknownLevel(level));
    }
  }

  /** The text and the three lists of a statement object. */
  predicate TextsShaped(j: Json) {
    && j.Obj? && j.members.Keys == StatementNames() && TextOk(Get(j.members, Text))
    && ListOk(Get(j.members, SourceIds)) && ListOk(Get(j.members, Assumptions)) && ListOk(Get(j.members, OpenEvidence))
  }

  method ReadTexts(value: Json, path: seq<Step>, log: ErrorLog)
    returns (text: string, ids: seq<string>, assumptions: seq<string>, evidence: seq<string>)
    modifies log
    ensures var m := Members(value);
            && text == CleanText(Get(m, Text)) && ids == CleanList(Get(m, SourceIds))
            && assumptions == CleanList(Get(m, Assumptions)) && evidence == CleanList(Get(m, OpenEvidence))
    ensures Reports(log, TextsShaped(value))
  {
    hide TextOk;
    hide CleanText;
    hide ListOk;
    hide CleanList;
    hide StatementNames;
    var m := AsDict(value, path, log);
    ExactFields(m, StatementNames(), path, log);
    text := NonemptyText(Get(m, Text), path + [Member(Text)], log);
    ids := StringList(Get(m, SourceIds), path + [Member(SourceIds)], log);
    assumptions := StringList(Get(m, Assumptions), path + [Member(Assumptions)], log);
    evidence := StringList(Get(m, OpenEvidence), path + [Member(OpenEvidence)], log);
  }

  /** Provenance, and the numbers of a text that is there. */
  method CheckClaims(rules: Rules, st: Statement, sources: Sources, path: seq<Step>, log: ErrorLog)
    modifies log
    ensures old(log.issues) <= log.issues
    ensures st.text != "" ==>
              Reports(log, (st.sourceIds != [] || st.assumptions != [] || st.openEvidence != []) && Grounded(rules, sources, st))
  {
    hide Supported;
    if st.sourceIds == [] && st.assumptions == [] && st.openEvidence == [] {
      log.Append(path, NoProvenance);
    }
    if st.text != "" {
      ValidateNumericClaims(rules, st.text, st.sourceIds, sources, path + [Member(Text)], log);
    }
  }

  /** `_validate_statement`: the normalised statement, and an error unless it is acceptable. */
  method ValidateStatement(rules: Rules, value: Json, path: seq<Step>, sources: Sources, log: ErrorLog) returns (st: Statement)
    modifies log
    ensures st == StatementOf(value) && Reports(log, StatementOk(rules, sources, value))
  {
    hide TextOk;
    hide CleanText;
    hide ListOk;
    hide CleanList;
    hide KnownLevel;
    hide NoDuplicates;
    hide Grounded;
    hide StatementNames;
    hide UncertaintyNames;
    TextIsClean(Get(Members(value), Text));
    var text, ids, assumptions, evidence := ReadTexts(value, path, log);
    CheckSources(ids, sources, path + [Member(SourceIds)], log);
    var level, reason := ValidateUncertainty(Get(Members(value), Uncertainty), path + [Member(Uncertainty)], log);
    st := Statement(text, ids, assumptions, evidence, level, reason);
    CheckClaims(rules, st, sources, path, log);
  }

  // ---- the three drafts

  function FieldOf(raw: Json, f: Field): Json {
    Get(Members(raw), Part(f))
  }

  /** One draft: all its fields and no other, each an acceptable statement. */
  predicate LaneOk(rules: Rules, sources: Sources, raw: Json) {
    raw.Obj? && raw.members.Keys == FieldNames() && forall f | f in OptionFields() :: StatementOk(rules, sources, FieldOf(raw, f))
  }

  method ValidateLane(rules: Rules, raw: Json, path: seq<Step>, sources: Sources, log: ErrorLog)
    returns (option: map<Field, Statement>)
    modifies log
    ensures forall f | f in OptionFields() :: f in option && option[f] == StatementOf(FieldOf(raw, f))
    ensures Reports(log, LaneOk(rules, sources, raw))
  {
    hide StatementOk;
    hide StatementOf;
    hide FieldNames;
    hide OptionFields;
    var m := AsDict(raw, path, log);
    ExactFields(m, FieldNames(), path, log);
    var fields := OptionFields();
    option := map[];
    for n := 0 to |fields|
      invariant forall i | 0 <= i < n :: fields[i] in option && option[fields[i]] == StatementOf(FieldOf(raw, fields[i]))
      invariant Reports(log, raw.Obj? && raw.members.Keys == FieldNames()
                             && forall i | 0 <= i < n :: StatementOk(rules, sources, FieldOf(raw, fields[i])))
    {
      var st := ValidateStatement(rules, Get(m, Part(fields[n])), path + [Member(Part(fields[n]))], sources, log);
      option := option[fields[n] := st];
    }
  }

  method ValidateLanes(rules: Rules, options: map<Name, Json>, path: seq<Step>, sources: Sources, log: ErrorLog)
    returns (normalized: map<Lane, map<Field, Statement>>)
    modifies log
    ensures ReadsOptions(normalized, options)
    ensures Reports(log, forall l | l in Lanes() :: LaneOk(rules, sources, Get(options, Of(l))))
  {
    hide LaneOk;
    hide StatementOf;
    hide OptionFields;
    hide Lanes;
    var lanes := Lanes();
    normalized := map[];
    for n := 0 to |lanes|
      invariant forall i | 0 <= i < n :: lanes[i] in normalized
                  && forall f | f in OptionFields() ::
                       f in normalized[lanes[i]] && normalized[lanes[i]][f] == StatementOf(FieldOf(Get(options, Of(lanes[i])), f))
      invariant Reports(log, forall i | 0 <= i < n :: LaneOk(rules, sources, Get(options, Of(lanes[i]))))
    {
      var option := ValidateLane(rules, Get(options, Of(lanes[n])), path + [Member(Of(lanes[n]))], sources, log);
      normalized := normalized[lanes[n] := option];
    }
  }

  function NameSignature(rules: Rules, options: map<Target, Statement>, l: Lane): string
    requires Full(options)
  {
    Signature(rules, options[Target(l, OptionName)].text)
  }

  /** `_normalized_signature` */
  function ContentSignature(rules: Rules, options: map<Target, Statement>, l: Lane): seq<string>
    requires Full(options)
  {
    var fields := DistinctiveFields();
    seq(|fields|, i requires 0 <= i < |fields| => Signature(rules, options[Target(l, fields[i])].text))
  }

  lemma SignaturesCompare(rules: Rules, options: map<Target, Statement>, a: Lane, b: Lane)
    requires Full(options)
    ensures SameName(rules, options, a, b) <==> NameSignature(rules, options, a) == NameSignature(rules, options, b)
    ensures SameContent(rules, options, a, b) <==> ContentSignature(rules, options, a) == ContentSignature(rules, options, b)
  {
    hide Signature;
    var fields, x, y := DistinctiveFields(), ContentSignature(rules, options, a), ContentSignature(rules, options, b);
    assert |x| == |fields| && |y| == |fields|;
    if SameContent(rules, options, a, b) {
      assert forall i | 0 <= i < |fields| :: x[i] == y[i] by {
        forall i | 0 <= i < |fields| ensures x[i] == y[i] {
          assert fields[i] in fields;
        }
      }
    } else {
      var f :| f in fields && Signature(rules, options[Target(a, f)].text) != Signature(rules, options[Target(b, f)].text);
      var i :| 0 <= i < |fields| && fields[i] == f;
      assert x[i] != y[i];
    }
  }

  lemma DistinctLanes<T(!new)>(xs: seq<T>)
    requires |xs| == 3
    ensures |set x | x in xs| == 3 <==> xs[0] != xs[1] && xs[0] != xs[2] && xs[1] != xs[2]
  {
    DistinctBySize(xs);
  }

  lemma DistinguishableBySize(rules: Rules, options: map<Target, Statement>, names: seq<string>, contents: seq<seq<string>>)
    requires Full(options) && |names| == 3 && |contents| == 3
    requires forall i | 0 <= i < 3 :: names[i] == NameSignature(rules, options, Lanes()[i])
                                      && contents[i] == ContentSignature(rules, options, Lanes()[i])
    ensures Distinguishable(rules, options) <==> |set x | x in names| == 3 && |set x | x in contents| == 3
  {
    hide SameName;
    hide SameContent;
    hide NameSignature;
    hide ContentSignature;
    DistinctLanes(names);
    DistinctLanes(contents);
    SignaturesCompare(rules, options, Organizational, RuleAutomation);
    SignaturesCompare(rules, options, Organizational, Assistant);
    SignaturesCompare(rules, options, RuleAutomation, Assistant);
    SignaturesCompare(rules, options, RuleAutomation, Organizational);
    SignaturesCompare(rules, options, Assistant, Organizational);
    SignaturesCompare(rules, options, Assistant, RuleAutomation);
  }

  predicate AllGiven(xs: seq<string>) {
    forall i | 0 <= i < |xs| :: xs[i] != ""
  }

  /** Names and contents are compared only if all of them are given. */
  method CheckDistinguishable(rules: Rules, options: map<Target, Statement>, path: seq<Step>, log: ErrorLog)
    requires Full(options) && KeepsInk(rules)
    modifies log
    ensures old(log.issues) <= log.issues
    ensures (forall t | t in Targets() :: CleanString(options[t].text)) ==> Reports(log, Distinguishable(rules, options))
  {
    hide Signature;
    hide CleanString;
    hide KeepsInk;
    hide Distinguishable;
    var lanes := Lanes();
    var names := seq(3, i requires 0 <= i < 3 => NameSignature(rules, options, lanes[i]));
    var contents := seq(3, i requires 0 <= i < 3 => ContentSignature(rules, options, lanes[i]));
    DistinguishableBySize(rules, options, names, contents);
    if AllGiven(names) && |set x | x in names| != 3 {
      log.Append(path, SameNames);
    }
    if (forall i | 0 <= i < 3 :: AllGiven(contents[i])) && |set x | x in contents| != 3 {
      log.Append(path, SameContents);
    }
    if forall t | t in Targets() :: CleanString(options[t].text) {
      forall t ensures Signature(rules, options[t].text) != "" {
        assert t in Targets();
        SignatureIsVisible(rules, options[t].text);
      }
    }
  }

  lemma LanesCover(rules: Rules, sources: Sources, j: Json)
    ensures (forall l | l in Lanes() :: LaneOk(rules, sources, Get(Members(Get(Members(j), Options)), Of(l)))) <==>
            && (forall l: Lane :: var lane := Get(Members(Get(Members(j), Options)), Of(l)); lane.Obj? && lane.members.Keys == FieldNames())
            && (forall t | t in Targets() :: StatementOk(rules, sources, RawStatement(j, t)))
  {
    hide StatementOk;
    hide FieldNames;
    var options := Members(Get(Members(j), Options));
    forall l: Lane, f: Field ensures FieldOf(Get(options, Of(l)), f) == RawStatement(j, Target(l, f)) {
    }
    assert forall t | t in Targets() :: t == Target(t.lane, t.field);
    hide RawStatement;
    hide FieldOf;
    hide Lanes;
    hide OptionFields;
  }

  predicate LanesOk(rules: Rules, sources: Sources, j: Json) {
    forall l | l in Lanes() :: LaneOk(rules, sources, Get(Members(Get(Members(j), Options)), Of(l)))
  }

  lemma PayloadVerdict(rules: Rules, sources: Sources, j: Json)
    ensures PayloadOk(rules, sources, j) <==> RootOk(j) && LanesOk(rules, sources, j) && Distinguishable(rules, OptionsOf(j))
    ensures LanesOk(rules, sources, j) ==> forall t | t in Targets() :: CleanString(OptionsOf(j)[t].text)
  {
    hide StatementOk;
    hide StatementOf;
    hide CleanText;
    hide Distinguishable;
    hide RawStatement;
    hide LaneOk;
    hide CleanString;
    LanesCover(rules, sources, j);
    if LanesOk(rules, sources, j) {
      forall t | t in Targets() ensures CleanString(OptionsOf(j)[t].text) {
        StatementIsGood(rules, sources, RawStatement(j, t));
      }
    }
    hide Lanes;
    hide Targets;
  }

  predicate Covers(normalized: map<Lane, map<Field, Statement>>) {
    forall l | l in Lanes() :: l in normalized && forall f | f in OptionFields() :: f in normalized[l]
  }

  function Flatten(normalized: map<Lane, map<Field, Statement>>): map<Target, Statement>
    requires Covers(normalized)
  {
    map t | t in Targets() :: assert t.lane in Lanes() && t.field in OptionFields(); normalized[t.lane][t.field]
  }

  predicate ReadsOptions(normalized: map<Lane, map<Field, Statement>>, options: map<Name, Json>) {
    forall l | l in Lanes() :: l in normalized
      && forall f | f in OptionFields() :: f in normalized[l] && normalized[l][f] == StatementOf(FieldOf(Get(options, Of(l)), f))
  }

  lemma FlattenReads(j: Json, normalized: map<Lane, map<Field, Statement>>)
    requires ReadsOptions(normalized, Members(Get(Members(j), Options)))
    ensures Covers(normalized) && Flatten(normalized) == OptionsOf(j)
  {
    hide StatementOf;
    hide OptionsOf;
    hide Lanes;
    hide OptionFields;
    forall t | t in Targets() ensures Flatten(normalized)[t] == StatementOf(RawStatement(j, t)) {
      assert t.lane in Lanes() && t.field in OptionFields();
    }
    hide RawStatement;
    OptionsAre(j, Flatten(normalized));
  }

  method ReadOptions(rules: Rules, j: Json, options: map<Name, Json>, sources: Sources, log: ErrorLog)
    returns (table: map<Target, Statement>)
    requires options == Members(Get(Members(j), Options))
    modifies log
    ensures table == OptionsOf(j) && Reports(log, LanesOk(rules, sources, j))
  {
    hide LaneOk;
    hide ReadsOptions;
    hide Covers;
    hide Flatten;
    hide OptionsOf;
    hide Lanes;
    var normalized := ValidateLanes(rules, options, [Member(Options)], sources, log);
    FlattenReads(j, normalized);
    table := Flatten(normalized);
  }

  /** `validate_solution_generation_payload`: the normalised payload, or the errors found. */
  method ValidatePayload(rules: Rules, sources: Sources, j: Json) returns (r: Validation, errors: seq<Issue>)
    requires KeepsInk(rules)
    ensures r == Validate(rules, sources, j)
    ensures r.Invalid? <==> errors != []
  {
    hide PayloadOk;
    hide RootOk;
    hide LanesOk;
    hide Distinguishable;
    hide OptionsOf;
    hide CleanText;
    hide CleanString;
    hide KeepsInk;
    PayloadVerdict(rules, sources, j);
    var log := new ErrorLog();
    var schema, prompt, options := ReadRoot(j, log);
    var table := ReadOptions(rules, j, options, sources, log);
    CheckDistinguishable(rules, table, [Member(Options)], log);
    if log.issues != [] {
      return Invalid, log.issues;
    }
    return Valid(Payload(schema, prompt, table)), [];
  }

  /** The root object: its members, the versions, and the object with the three lanes. */
  predicate RootOk(j: Json) {
    var options := Get(Members(j), Options);
    && j.Obj? && j.members.Keys == RootNames() && options.Obj? && options.members.Keys == LaneNames()
    && CleanText(Get(Members(j), SchemaVersion)) == GenerationSchemaVersion()
    && CleanText(Get(Members(j), PromptVersion)) == GenerationPromptVersion()
  }

  method CheckVersion(j: Json, version: string, path: seq<Step>, log: ErrorLog) returns (text: string)
    requires version != ""
    modifies log
    ensures text == CleanText(j) && Reports(log, text == version)
  {
    text := NonemptyText(j, path, log);
    if text != "" && text != version {
      log.Append(path, UnsupportedVersion);
    }
    TextIsClean(j);
  }

  method ReadRoot(j: Json, log: ErrorLog) returns (schema: string, prompt: string, options: map<Name, Json>)
    modifies log
    ensures schema == CleanText(Get(Members(j), SchemaVersion)) && prompt == CleanText(Get(Members(j), PromptVersion))
    ensures options == Members(Get(Members(j), Options)) && Reports(log, RootOk(j))
  {
    hide CleanText;
    var root := AsDict(j, [], log);
    ExactFields(root, RootNames(), [], log);
    schema := CheckVersion(Get(root, SchemaVersion), GenerationSchemaVersion(), [Member(SchemaVersion)], log);
    prompt := CheckVersion(Get(root, PromptVersion), GenerationPromptVersion(), [Member(PromptVersion)], log);
    options := AsDict(Get(root, Options), [Member(Options)], log);
    ExactFields(options, LaneNames(), [Member(Options)], log);
  }
}
