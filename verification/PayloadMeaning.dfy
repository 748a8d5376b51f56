/** What the validator accepts, said of the JSON itself: an account of its own, which the checks are proved to meet. */
module PayloadMeaning {
  import opened Texts
  import opened Payloads
  import opened PayloadProofs

  // ---- texts

  /** The JSON value is a text that shows `s`: `s` between white space, and not empty. */
  predicate Shows(j: Json, s: string) {
    j.Str? && s != "" && s == Strip(j.s)
  }

  predicate ShowsAll(j: Json, xs: seq<string>) {
    j.List? && |j.items| == |xs| && forall i | 0 <= i < |xs| :: Shows(j.items[i], xs[i])
  }

  lemma TextShows(j: Json, s: string)
    ensures Shows(j, s) <==> TextOk(j) && CleanText(j) == s
  {
  }

  lemma {:induction false} ItemsShow(items: seq<Json>, xs: seq<string>)
    ensures |items| == |xs| && (forall i | 0 <= i < |xs| :: Shows(items[i], xs[i])) <==>
              (forall i | 0 <= i < |items| :: TextOk(items[i])) && CleanItems(items) == xs
  {
    if items != [] && xs != [] {
      var n, m := |items| - 1, |xs| - 1;
      ItemsShow(items[..n], xs[..m]);
      TextShows(items[n], xs[m]);
      TextIsClean(items[n]);
      hide Shows;
      hide TextOk;
      hide CleanText;
      assert xs == xs[..m] + [xs[m]];
      LastItem(items, xs);
    } else if items != [] {
      ItemsAreClean(items);
    }
  }

  lemma LastItem(items: seq<Json>, xs: seq<string>)
    requires items != [] && xs != []
    ensures var n, m := |items| - 1, |xs| - 1;
            && ((forall i | 0 <= i < |items| :: TextOk(items[i])) <==> (forall i | 0 <= i < n :: TextOk(items[..n][i])) && TextOk(items[n]))
            && (n == m ==> ((forall i | 0 <= i < |xs| :: Shows(items[i], xs[i])) <==>
                              (forall i | 0 <= i < m :: Shows(items[..n][i], xs[..m][i])) && Shows(items[n], xs[m])))
  {
    hide Shows;
    hide TextOk;
    var n, m := |items| - 1, |xs| - 1;
    assert forall i | 0 <= i < n :: items[..n][i] == items[i];
    assert forall i | 0 <= i < m :: xs[..m][i] == xs[i];
  }

  lemma ListShows(j: Json, xs: seq<string>)
    ensures ShowsAll(j, xs) <==> ListOk(j) && CleanList(j) == xs
  {
    if j.List? {
      ItemsShow(j.items, xs);
    }
  }

  // ---- one statement

  /** The JSON object has exactly the members of a statement, and they show the parts of `st`. */
  predicate Says(j: Json, st: Statement) {
    && j.Obj? && j.members.Keys == {Text, SourceIds, Assumptions, OpenEvidence, Uncertainty}
    && Shows(j.members[Text], st.text) && ShowsAll(j.members[SourceIds], st.sourceIds)
    && ShowsAll(j.members[Assumptions], st.assumptions) && ShowsAll(j.members[OpenEvidence], st.openEvidence)
    && j.members[Uncertainty].Obj? && j.members[Uncertainty].members.Keys == {Level, Reason}
    && Shows(j.members[Uncertainty].members[Level], st.level) && Shows(j.members[Uncertainty].members[Reason], st.reason)
  }

  /** The statement names known sources once each, has something to stand on, and takes every number from a source it names. */
  ghost predicate Trustworthy(rules: Rules, sources: Sources, st: Statement) {
    && (forall i, k | 0 <= i < k < |st.sourceIds| :: st.sourceIds[i] != st.sourceIds[k])
    && (forall i | 0 <= i < |st.sourceIds| :: st.sourceIds[i] in sources)
    && st.level in {"low", "medium", "high"}
    && |st.sourceIds| + |st.assumptions| + |st.openEvidence| > 0
    && (forall token | token in rules.tokens(st.text) ::
          exists i | 0 <= i < |st.sourceIds| :: st.sourceIds[i] in sources && token in rules.tokens(sources[st.sourceIds[i]]))
  }

  lemma SaysIff(j: Json, st: Statement)
    ensures Says(j, st) <==> StatementShaped(j) && StatementOf(j) == st
  {
    var m := Members(j);
    var u := Members(Get(m, Uncertainty));
    TextShows(Get(m, Text), st.text);
    ListShows(Get(m, SourceIds), st.sourceIds);
    ListShows(Get(m, Assumptions), st.assumptions);
    ListShows(Get(m, OpenEvidence), st.openEvidence);
    TextShows(Get(u, Level), st.level);
    TextShows(Get(u, Reason), st.reason);
    hide Shows;
    hide ShowsAll;
    hide TextOk;
    hide ListOk;
    hide CleanText;
    hide CleanList;
  }

  lemma GroundedIff(rules: Rules, sources: Sources, st: Statement)
    requires forall i | 0 <= i < |st.sourceIds| :: st.sourceIds[i] in sources
    ensures Grounded(rules, sources, st) <==>
              forall token | token in rules.tokens(st.text) ::
                exists i | 0 <= i < |st.sourceIds| :: st.sourceIds[i] in sources && token in rules.tokens(sources[st.sourceIds[i]])
  {
    forall token
      ensures token in Supported(rules, sources, st.sourceIds) <==>
                exists i | 0 <= i < |st.sourceIds| :: st.sourceIds[i] in sources && token in rules.tokens(sources[st.sourceIds[i]])
    {
      if token in Supported(rules, sources, st.sourceIds) {
        var i :| 0 <= i < |st.sourceIds| && token in rules.tokens(SourceValue(sources, st.sourceIds[i]));
        assert SourceValue(sources, st.sourceIds[i]) == sources[st.sourceIds[i]];
      }
      if exists i | 0 <= i < |st.sourceIds| :: st.sourceIds[i] in sources && token in rules.tokens(sources[st.sourceIds[i]]) {
        var i :| 0 <= i < |st.sourceIds| && st.sourceIds[i] in sources && token in rules.tokens(sources[st.sourceIds[i]]);
        assert SourceValue(sources, st.sourceIds[i]) == sources[st.sourceIds[i]];
      }
    }
  }

  lemma HoldsIff(rules: Rules, sources: Sources, st: Statement)
    ensures StatementHolds(rules, sources, st) <==> Trustworthy(rules, sources, st)
  {
    if forall i | 0 <= i < |st.sourceIds| :: st.sourceIds[i] in sources {
      GroundedIff(rules, sources, st);
    }
    hide Grounded;
  }

  /** A statement passes exactly if it says something trustworthy, and it is read as what it says. */
  lemma StatementMeans(rules: Rules, sources: Sources, j: Json, st: Statement)
    ensures Says(j, st) && Trustworthy(rules, sources, st) <==> StatementOk(rules, sources, j) && StatementOf(j) == st
  {
    SaysIff(j, st);
    HoldsIff(rules, sources, st);
    hide Says;
    hide Trustworthy;
    hide StatementShaped;
    hide StatementHolds;
    hide StatementOf;
  }

  // ---- comparing texts word by word

  /** The words of a text: its longest pieces without white space. */
  function Words(s: string): (ws: seq<string>)
    ensures s != "" && !IsSpace(s[0]) ==> ws != []
  {
    if s == "" then []
    else if IsSpace(s[0]) then Words(s[1..])
    else if |s| == 1 || IsSpace(s[1]) then [[s[0]]] + Words(s[1..])
    else
      var ws := Words(s[1..]);
      [[s[0]] + ws[0]] + ws[1..]
  }

  function Spaced(ws: seq<string>): string {
    if ws == [] then "" else if |ws| == 1 then ws[0] else ws[0] + " " + Spaced(ws[1..])
  }

  predicate ProperWord(w: string) { w != "" && forall i | 0 <= i < |w| :: !IsSpace(w[i]) }

  lemma {:induction false} WordsAreProper(s: string)
    ensures forall i | 0 <= i < |Words(s)| :: ProperWord(Words(s)[i])
  {
    if s != "" {
      WordsAreProper(s[1..]);
      hide IsSpace;
    }
  }

  lemma {:induction false} DropSpacesKeepsWords(s: string)
    ensures Words(DropLeft(s, IsSpace)) == Words(s)
  {
    if s != "" && IsSpace(s[0]) {
      DropSpacesKeepsWords(s[1..]);
    }
  }

  lemma {:induction false} FirstWord(t: string)
    requires t != "" && !IsSpace(t[0])
    ensures |Word(t)| <= |t| && Words(t) == [Word(t)] + Words(t[|Word(t)|..])
  {
    if |t| > 1 && !IsSpace(t[1]) {
      FirstWord(t[1..]);
      assert t[1..][|Word(t[1..])|..] == t[|Word(t)|..];
      var ws := Words(t[1..]);
      assert ws[0] == Word(t[1..]) && ws[1..] == Words(t[|Word(t)|..]);
    } else {
      assert Word(t[1..]) == "";
      assert Word(t) == [t[0]];
    }
    hide IsSpace;
  }

  lemma {:induction false} SquashIsSpaced(s: string)
    ensures Squash(s) == Spaced(Words(s)) && (Squash(s) == "" <==> Words(s) == [])
    decreases |s|
  {
    DropLeftShrinks(s, IsSpace);
    DropLeftStops(s, IsSpace);
    DropSpacesKeepsWords(s);
    var t := DropLeft(s, IsSpace);
    WordWithin(t);
    if t != "" {
      FirstWord(t);
      SquashIsSpaced(t[|Word(t)|..]);
      var rest := Words(t[|Word(t)|..]);
      assert Words(s)[1..] == rest;
      WordsAreProper(t);
      assert ProperWord(Words(t)[0]);
    }
    hide Words;
    hide Word;
    hide IsSpace;
  }

  lemma {:induction false} WordsOfWord(w: string, rest: string)
    requires ProperWord(w) && (rest == "" || IsSpace(rest[0]))
    ensures Words(w + rest) == [w] + Words(rest)
  {
    var s := w + rest;
    assert s[1..] == w[1..] + rest;
    if |w| > 1 {
      WordsOfWord(w[1..], rest);
      assert [w[0]] + w[1..] == w && s[1] == w[1];
    } else {
      assert w[1..] + rest == rest && w == [w[0]];
    }
  }

  lemma {:induction false} WordsOfSpaced(ws: seq<string>)
    requires forall i | 0 <= i < |ws| :: ProperWord(ws[i])
    ensures Words(Spaced(ws)) == ws
  {
    if |ws| == 1 {
      WordsOfWord(ws[0], "");
      assert ws[0] + "" == ws[0];
    } else if |ws| > 1 {
      WordsOfSpaced(ws[1..]);
      var rest := " " + Spaced(ws[1..]);
      assert ws[0] + " " + Spaced(ws[1..]) == ws[0] + rest;
      WordsOfWord(ws[0], rest);
      assert rest[1..] == Spaced(ws[1..]);
      assert IsSpace(' ');
    }
  }

  /** Two texts compare equal exactly if, in lower case, they have the same words. */
  lemma SameSignature(rules: Rules, a: string, b: string)
    ensures Signature(rules, a) == Signature(rules, b) <==> Words(rules.lower(a)) == Words(rules.lower(b))
  {
    SquashIsSpaced(rules.lower(a));
    SquashIsSpaced(rules.lower(b));
    WordsAreProper(rules.lower(a));
    WordsAreProper(rules.lower(b));
    WordsOfSpaced(Words(rules.lower(a)));
    WordsOfSpaced(Words(rules.lower(b)));
    hide Squash;
    hide Words;
    hide Spaced;
  }

  // ---- the three drafts

  function LaneMembers(): set<Name> { {Of(Organizational), Of(RuleAutomation), Of(Assistant)} }

  function FieldMembers(): set<Name> {
    {Part(OptionName), Part(Description), Part(ExpectedValue), Part(BottleneckCoverage), Part(DataRequirements),
     Part(ApplicationImpact), Part(IntegrationImpact), Part(TechnologyConstraints), Part(Risks), Part(ArchitectureFit)}
  }

  /** The JSON object has exactly the three drafts with exactly the ten statements, and they say those of `p`. */
  ghost predicate SaysPayload(j: Json, p: Payload) {
    && j.Obj? && j.members.Keys == {SchemaVersion, PromptVersion, Options}
    && Shows(j.members[SchemaVersion], p.schemaVersion) && Shows(j.members[PromptVersion], p.promptVersion)
    && j.members[Options].Obj? && j.members[Options].members.Keys == LaneMembers()
    && (forall n | n in j.members[Options].members ::
          j.members[Options].members[n].Obj? && j.members[Options].members[n].members.Keys == FieldMembers())
    && Full(p.options) && forall t: Target :: Says(Statements(j, t), p.options[t])
  }

  function Statements(j: Json, t: Target): Json {
    RawStatement(j, t)
  }

  /** The text of one draft says something else than that of another. */
  predicate Differs(rules: Rules, p: Payload, a: Lane, b: Lane, f: Field)
    requires Full(p.options)
  {
    Words(rules.lower(p.options[Target(a, f)].text)) != Words(rules.lower(p.options[Target(b, f)].text))
  }

  /** Any two drafts have different names, and differ in one of the six fields they are compared by. */
  ghost predicate Apart(rules: Rules, p: Payload)
    requires Full(p.options)
  {
    forall a: Lane, b: Lane | a != b ::
      && Differs(rules, p, a, b, OptionName)
      && (Differs(rules, p, a, b, Description) || Differs(rules, p, a, b, ExpectedValue) || Differs(rules, p, a, b, BottleneckCoverage)
          || Differs(rules, p, a, b, IntegrationImpact) || Differs(rules, p, a, b, Risks) || Differs(rules, p, a, b, ArchitectureFit))
  }

  /** A payload of the current versions, every statement trustworthy, the drafts apart. */
  ghost predicate Sound(rules: Rules, sources: Sources, p: Payload) {
    && p.schemaVersion == "1.0" && p.promptVersion == "1.2" && Full(p.options)
    && (forall t: Target :: Trustworthy(rules, sources, p.options[t]))
    && Apart(rules, p)
  }

  lemma DiffersIff(rules: Rules, p: Payload, a: Lane, b: Lane, f: Field)
    requires Full(p.options)
    ensures Differs(rules, p, a, b, f) <==>
              Signature(rules, p.options[Target(a, f)].text) != Signature(rules, p.options[Target(b, f)].text)
  {
    SameSignature(rules, p.options[Target(a, f)].text, p.options[Target(b, f)].text);
    hide Signature;
    hide Words;
  }

  lemma ContentDiffers(rules: Rules, p: Payload, a: Lane, b: Lane)
    requires Full(p.options)
    ensures SameContent(rules, p.options, a, b) <==>
              !(Differs(rules, p, a, b, Description) || Differs(rules, p, a, b, ExpectedValue) || Differs(rules, p, a, b, BottleneckCoverage)
                || Differs(rules, p, a, b, IntegrationImpact) || Differs(rules, p, a, b, Risks) || Differs(rules, p, a, b, ArchitectureFit))
  {
    DistinctiveAre();
    forall f: Field
      ensures Differs(rules, p, a, b, f) <==>
                Signature(rules, p.options[Target(a, f)].text) != Signature(rules, p.options[Target(b, f)].text)
    {
      DiffersIff(rules, p, a, b, f);
    }
    hide DistinctiveFields;
    hide Differs;
    hide Signature;
  }

  lemma DistinctiveAre()
    ensures forall f :: f in DistinctiveFields() <==>
              f in {Description, ExpectedValue, BottleneckCoverage, IntegrationImpact, Risks, ArchitectureFit}
  {
    var fields := DistinctiveFields();
    assert fields[0] == Description && fields[1] == ExpectedValue && fields[2] == BottleneckCoverage
        && fields[3] == IntegrationImpact && fields[4] == Risks && fields[5] == ArchitectureFit;
  }

  lemma ApartIff(rules: Rules, p: Payload)
    requires Full(p.options)
    ensures Apart(rules, p) <==> Distinguishable(rules, p.options)
  {
    forall a: Lane, b: Lane
      ensures SameName(rules, p.options, a, b) <==> !Differs(rules, p, a, b, OptionName)
      ensures SameContent(rules, p.options, a, b) <==>
                !(Differs(rules, p, a, b, Description) || Differs(rules, p, a, b, ExpectedValue) || Differs(rules, p, a, b, BottleneckCoverage)
                  || Differs(rules, p, a, b, IntegrationImpact) || Differs(rules, p, a, b, Risks) || Differs(rules, p, a, b, ArchitectureFit))
    {
      DiffersIff(rules, p, a, b, OptionName);
      ContentDiffers(rules, p, a, b);
      hide Differs;
      hide Signature;
      hide SameContent;
    }
    hide Differs;
    hide SameName;
    hide SameContent;
  }

  lemma MembersAre()
    ensures LaneMembers() == LaneNames() && FieldMembers() == FieldNames()
  {
    forall n ensures n in LaneMembers() <==> n in LaneNames() {
      if n.Of? {
        assert n.lane.Organizational? || n.lane.RuleAutomation? || n.lane.Assistant?;
      }
    }
    FieldMembersAre();
  }

  lemma FieldMembersAre()
    ensures FieldMembers() == FieldNames()
  {
    forall n ensures n in FieldMembers() <==> n in FieldNames() {
      if n.Part? {
        assert n.field.OptionName? || n.field.Description? || n.field.ExpectedValue? || n.field.BottleneckCoverage?
            || n.field.DataRequirements? || n.field.ApplicationImpact? || n.field.IntegrationImpact?
            || n.field.TechnologyConstraints? || n.field.Risks? || n.field.ArchitectureFit?;
      }
    }
  }

  lemma LanesShaped(options: map<Name, Json>)
    requires options.Keys == LaneNames()
    ensures (forall n | n in options :: options[n].Obj? && options[n].members.Keys == FieldNames()) <==>
              forall l: Lane :: Get(options, Of(l)).Obj? && Get(options, Of(l)).members.Keys == FieldNames()
  {
    hide FieldNames;
    assert forall l: Lane :: Of(l) in options;
    assert forall n | n in options :: n.Of?;
  }

  lemma ShapeIff(j: Json)
    ensures PayloadShaped(j) <==>
              && j.Obj? && j.members.Keys == {SchemaVersion, PromptVersion, Options}
              && j.members[Options].Obj? && j.members[Options].members.Keys == LaneMembers()
              && (forall n | n in j.members[Options].members ::
                    j.members[Options].members[n].Obj? && j.members[Options].members[n].members.Keys == FieldMembers())
  {
    MembersAre();
    if j.Obj? && j.members.Keys == RootNames() && j.members[Options].Obj? && j.members[Options].members.Keys == LaneNames() {
      LanesShaped(j.members[Options].members);
    }
    hide LaneMembers;
    hide FieldMembers;
    hide LaneNames;
    hide FieldNames;
  }

  lemma SamePayload(p: Payload, q: Payload)
    requires Full(p.options) && Full(q.options)
    ensures p == q <==> p.schemaVersion == q.schemaVersion && p.promptVersion == q.promptVersion && forall t: Target :: p.options[t] == q.options[t]
  {
    if forall t: Target :: p.options[t] == q.options[t] {
      assert p.options == q.options;
    }
  }

  lemma OptionsAre(j: Json, t: Target)
    ensures OptionsOf(j)[t] == StatementOf(RawStatement(j, t))
  {
    assert t in Targets();
    hide StatementOf;
    hide RawStatement;
  }

  lemma SoundIff(rules: Rules, sources: Sources, p: Payload)
    ensures Sound(rules, sources, p) <==>
              Full(p.options) && VersionsOk(p) && Distinguishable(rules, p.options)
              && forall t: Target :: StatementHolds(rules, sources, p.options[t])
  {
    if Full(p.options) {
      ApartIff(rules, p);
      forall t: Target ensures StatementHolds(rules, sources, p.options[t]) <==> Trustworthy(rules, sources, p.options[t]) {
        HoldsIff(rules, sources, p.options[t]);
      }
    }
    hide Apart;
    hide Distinguishable;
    hide StatementHolds;
    hide Trustworthy;
  }

  lemma StatementsSay(j: Json, p: Payload)
    requires Full(p.options)
    ensures (forall t: Target :: Says(Statements(j, t), p.options[t])) <==>
              forall t: Target :: StatementShaped(RawStatement(j, t)) && OptionsOf(j)[t] == p.options[t]
  {
    forall t: Target
      ensures Says(Statements(j, t), p.options[t]) <==> StatementShaped(RawStatement(j, t)) && OptionsOf(j)[t] == p.options[t]
    {
      SaysIff(RawStatement(j, t), p.options[t]);
      OptionsAre(j, t);
      hide Says;
      hide StatementShaped;
      hide StatementOf;
      hide OptionsOf;
      hide RawStatement;
    }
    hide Says;
    hide StatementShaped;
    hide OptionsOf;
    hide RawStatement;
    hide Statements;
  }

  lemma VersionsShow(j: Json, p: Payload)
    requires j.Obj? && SchemaVersion in j.members && PromptVersion in j.members
    requires p.schemaVersion == "1.0" && p.promptVersion == "1.2"
    ensures Shows(j.members[SchemaVersion], p.schemaVersion) && Shows(j.members[PromptVersion], p.promptVersion) <==>
              PayloadOf(j).schemaVersion == p.schemaVersion && PayloadOf(j).promptVersion == p.promptVersion
  {
    TextShows(j.members[SchemaVersion], p.schemaVersion);
    TextShows(j.members[PromptVersion], p.promptVersion);
    hide Shows;
    hide OptionsOf;
    hide Strip;
  }

  /**
   * What the validator accepts. A payload passes exactly if it is shaped as three drafts of ten statements, is of
   * the current versions, every statement is trustworthy, and the drafts are apart; and it is read as what it says.
   */
  lemma PayloadMeans(rules: Rules, sources: Sources, j: Json, p: Payload)
    ensures SaysPayload(j, p) && Sound(rules, sources, p) <==> Validate(rules, sources, j) == Valid(p)
  {
    ShapeIff(j);
    SoundIff(rules, sources, p);
    hide Sound;
    hide Shows;
    if Full(p.options) {
      StatementsSay(j, p);
      SamePayload(p, PayloadOf(j));
    }
    if PayloadShaped(j) && VersionsOk(p) {
      VersionsShow(j, p);
    }
    hide Says;
    hide StatementShaped;
    hide StatementHolds;
    hide StatementOf;
    hide RawStatement;
    hide Statements;
    hide Distinguishable;
    hide LaneMembers;
    hide FieldMembers;
    hide PayloadShaped;
    PayloadOkIs(rules, sources, j);
    hide PayloadOk;
    hide OptionsOf;
  }

  lemma PayloadOkIs(rules: Rules, sources: Sources, j: Json)
    ensures PayloadOk(rules, sources, j) <==>
              PayloadShaped(j) && VersionsOk(PayloadOf(j)) && Distinguishable(rules, OptionsOf(j))
              && forall t: Target :: StatementShaped(RawStatement(j, t)) && StatementHolds(rules, sources, OptionsOf(j)[t])
  {
    forall t: Target ensures StatementOk(rules, sources, RawStatement(j, t)) <==>
                               StatementShaped(RawStatement(j, t)) && StatementHolds(rules, sources, OptionsOf(j)[t])
    {
      OptionsAre(j, t);
      hide OptionsOf;
      hide StatementShaped;
      hide StatementHolds;
    }
    hide StatementOk;
    hide OptionsOf;
    hide StatementShaped;
    hide StatementHolds;
    hide Distinguishable;
    hide PayloadShaped;
    hide RawStatement;
    hide VersionsOk;
    assert forall t: Target :: t in Targets();
  }
}
