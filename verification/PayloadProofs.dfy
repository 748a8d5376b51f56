/** The validator's fixpoint, and what it guarantees of every payload it returns. */
module PayloadProofs {
  import opened Texts
  import opened Payloads

  // ---- texts and lists

  lemma TextIsClean(j: Json)
    ensures CleanText(j) != "" <==> TextOk(j)
    ensures TextOk(j) ==> CleanString(CleanText(j))
  {
    if j.Str? {
      StripIdempotent(j.s);
    }
  }

  lemma CleanIsText(s: string)
    ensures CleanString(s) <==> TextOk(Str(s)) && CleanText(Str(s)) == s
  {
    StripIdempotent(s);
    if CleanString(s) {
      TrimmedIsStripped(s);
    }
  }

  lemma {:induction false} ItemsAreClean(items: seq<Json>)
    ensures CleanStrings(CleanItems(items))
    ensures (forall i | 0 <= i < |items| :: TextOk(items[i])) ==> |CleanItems(items)| == |items|
  {
    if items != [] {
      ItemsAreClean(items[..|items| - 1]);
      TextIsClean(items[|items| - 1]);
      assert CleanItems(items) == CleanItems(items[..|items| - 1]) + [CleanText(items[|items| - 1])]
          || CleanItems(items) == CleanItems(items[..|items| - 1]);
    }
  }

  lemma {:induction false} CleanItemsAre(items: seq<Json>, xs: seq<string>)
    requires |items| == |xs| && forall i | 0 <= i < |xs| :: items[i] == Str(xs[i])
    requires CleanStrings(xs)
    ensures CleanItems(items) == xs && forall i | 0 <= i < |items| :: TextOk(items[i])
  {
    if items != [] {
      var n := |xs| - 1;
      CleanItemsAre(items[..n], xs[..n]);
      CleanIsText(xs[n]);
      assert xs[..n] + [xs[n]] == xs;
    }
  }

  lemma {:induction false} CleanItemsOnly(items: seq<Json>, xs: seq<string>)
    requires |items| == |xs| && forall i | 0 <= i < |xs| :: items[i] == Str(xs[i])
    requires CleanItems(items) == xs
    ensures CleanStrings(xs)
  {
    ItemsAreClean(items);
  }

  lemma ListIsClean(j: Json)
    ensures CleanStrings(CleanList(j))
  {
    if j.List? {
      ItemsAreClean(j.items);
    }
  }

  lemma CleanIsList(xs: seq<string>)
    ensures CleanStrings(xs) <==> ListOk(ListJson(xs)) && CleanList(ListJson(xs)) == xs
  {
    var items := ListJson(xs).items;
    if CleanStrings(xs) {
      CleanItemsAre(items, xs);
    } else if ListOk(ListJson(xs)) && CleanList(ListJson(xs)) == xs {
      CleanItemsOnly(items, xs);
    }
  }

  // ---- one statement

  lemma ReadIsClean(j: Json)
    requires StatementShaped(j)
    ensures CleanStatement(StatementOf(j))
  {
    hide CleanText;
    hide TextOk;
    hide CleanList;
    hide ListOk;
    hide CleanStrings;
    hide CleanString;
    var m := Members(j);
    var u := Members(Get(m, Uncertainty));
    TextIsClean(Get(m, Text));
    ListIsClean(Get(m, SourceIds));
    ListIsClean(Get(m, Assumptions));
    ListIsClean(Get(m, OpenEvidence));
    TextIsClean(Get(u, Level));
    TextIsClean(Get(u, Reason));
  }

  /** A statement the validator lets through is good. */
  lemma StatementIsGood(rules: Rules, sources: Sources, j: Json)
    requires StatementOk(rules, sources, j)
    ensures GoodStatement(rules, sources, StatementOf(j))
  {
    ReadIsClean(j);
    hide StatementShaped;
    hide StatementOf;
    hide StatementHolds;
    hide CleanStatement;
  }

  /** Written back, a clean statement is well shaped and read as itself; nothing else is. */
  lemma StatementReadsBack(st: Statement)
    ensures CleanStatement(st) <==> StatementShaped(StatementJson(st)) && StatementOf(StatementJson(st)) == st
  {
    hide TextOk;
    hide CleanText;
    hide CleanList;
    hide ListJson;
    hide CleanStrings;
    hide CleanString;
    hide ListOk;
    CleanIsText(st.text);
    CleanIsText(st.level);
    CleanIsText(st.reason);
    CleanIsList(st.sourceIds);
    CleanIsList(st.assumptions);
    CleanIsList(st.openEvidence);
    StatementJsonMembers(st);
    hide StatementJson;
  }

  /** The validator accepts a clean statement, as itself, exactly if its values hold. */
  lemma StatementFixpoint(rules: Rules, sources: Sources, st: Statement)
    ensures GoodStatement(rules, sources, st) <==>
              StatementOk(rules, sources, StatementJson(st)) && StatementOf(StatementJson(st)) == st
    ensures CleanStatement(st) ==> StatementOf(StatementJson(st)) == st
  {
    StatementReadsBack(st);
    hide StatementShaped;
    hide StatementOf;
    hide StatementJson;
    hide StatementHolds;
    hide CleanStatement;
  }

  lemma StatementJsonMembers(st: Statement)
    ensures var j := StatementJson(st);
            var m := Members(j);
            var u := Get(m, Uncertainty);
            && j.Obj? && m.Keys == StatementNames() && u.Obj? && u.members.Keys == UncertaintyNames()
            && Get(m, Text) == Str(st.text) && Get(m, SourceIds) == ListJson(st.sourceIds)
            && Get(m, Assumptions) == ListJson(st.assumptions) && Get(m, OpenEvidence) == ListJson(st.openEvidence)
            && Get(u.members, Level) == Str(st.level) && Get(u.members, Reason) == Str(st.reason)
  {
    hide ListJson;
  }

  // ---- the whole payload

  /** Grounding: whatever the validator returns is good, statement by statement and across the three drafts. */
  lemma AcceptedIsGood(rules: Rules, sources: Sources, j: Json)
    requires PayloadOk(rules, sources, j)
    ensures GoodPayload(rules, sources, PayloadOf(j))
  {
    forall t | t in Targets() ensures GoodStatement(rules, sources, PayloadOf(j).options[t]) {
      StatementIsGood(rules, sources, RawStatement(j, t));
    }
    hide GoodStatement;
    hide StatementOk;
    hide StatementOf;
    hide RawStatement;
    hide Distinguishable;
  }

  lemma RenderReads(p: Payload, raw: map<Target, Json>, t: Target)
    requires Full(p.options)
    ensures RawStatement(Render(p, raw), t) == RenderedStatement(p, raw, t)
  {
    hide RenderedStatement;
    assert Of(t.lane) in LaneNames() && Part(t.field) in FieldNames();
  }

  lemma RenderIsShaped(p: Payload, raw: map<Target, Json>)
    requires Full(p.options)
    ensures PayloadShaped(Render(p, raw))
    ensures VersionsOk(p) ==> VersionsOk(PayloadOf(Render(p, raw)))
  {
    hide RenderedStatement;
    forall l: Lane ensures Of(l) in LaneNames() {
    }
    CleanIsText(GenerationSchemaVersion());
    CleanIsText(GenerationPromptVersion());
    hide CleanText;
    hide OptionsOf;
  }

  /** What the overlaid payload is read as. */
  function Overlaid(p: Payload, raw: map<Target, Json>): (options: map<Target, Statement>)
    requires Full(p.options)
    ensures Full(options)
  {
    map t | t in Targets() :: if t in raw then StatementOf(raw[t]) else p.options[t]
  }

  lemma CleanAt(p: Payload, t: Target)
    requires CleanPayload(p)
    ensures Full(p.options) && CleanStatement(p.options[t])
  {
    assert t in Targets();
  }

  predicate CellOk(rules: Rules, sources: Sources, p: Payload, raw: map<Target, Json>, t: Target)
    requires Full(p.options)
  {
    if t in raw then StatementOk(rules, sources, raw[t]) else GoodStatement(rules, sources, p.options[t])
  }

  lemma OverlayCell(rules: Rules, sources: Sources, p: Payload, raw: map<Target, Json>, t: Target)
    requires CleanPayload(p)
    ensures StatementOk(rules, sources, RawStatement(Render(p, raw), t)) <==> CellOk(rules, sources, p, raw, t)
    ensures StatementOf(RawStatement(Render(p, raw), t)) == Overlaid(p, raw)[t]
  {
    hide StatementOk;
    hide StatementOf;
    hide StatementJson;
    hide GoodStatement;
    hide CleanStatement;
    hide RawStatement;
    hide Render;
    RenderReads(p, raw, t);
    CleanAt(p, t);
    StatementFixpoint(rules, sources, p.options[t]);
  }

  lemma OptionsAre(j: Json, options: map<Target, Statement>)
    requires Full(options) && forall t | t in Targets() :: StatementOf(RawStatement(j, t)) == options[t]
    ensures OptionsOf(j) == options
  {
    hide StatementOf;
    hide RawStatement;
  }

  lemma OverlayOptions(rules: Rules, sources: Sources, p: Payload, raw: map<Target, Json>)
    requires CleanPayload(p)
    ensures OptionsOf(Render(p, raw)) == Overlaid(p, raw)
  {
    assert Full(p.options);
    hide *;
    forall t | t in Targets() ensures StatementOf(RawStatement(Render(p, raw), t)) == Overlaid(p, raw)[t] {
      OverlayCell(rules, sources, p, raw, t);
    }
    OptionsAre(Render(p, raw), Overlaid(p, raw));
  }

  lemma OverlayStatements(rules: Rules, sources: Sources, p: Payload, raw: map<Target, Json>)
    requires CleanPayload(p)
    ensures (forall t | t in Targets() :: StatementOk(rules, sources, RawStatement(Render(p, raw), t))) <==>
            (forall t | t in Targets() :: CellOk(rules, sources, p, raw, t))
  {
    assert Full(p.options);
    hide *;
    forall t
      ensures StatementOk(rules, sources, RawStatement(Render(p, raw), t)) <==> CellOk(rules, sources, p, raw, t)
    {
      OverlayCell(rules, sources, p, raw, t);
    }
  }

  lemma OverlayVersions(p: Payload, raw: map<Target, Json>)
    requires Full(p.options) && VersionsOk(p)
    ensures PayloadOf(Render(p, raw)).schemaVersion == p.schemaVersion && PayloadOf(Render(p, raw)).promptVersion == p.promptVersion
  {
    RenderIsShaped(p, raw);
    hide Render;
    hide OptionsOf;
    hide CleanText;
  }

  /**
   * Validating a clean payload with some statements replaced: it passes exactly when the replacements
   * and the remaining statements do and the drafts stay distinguishable, and only the replacements
   * are normalised.
   */
  lemma OverlayChecks(rules: Rules, sources: Sources, p: Payload, raw: map<Target, Json>)
    requires CleanPayload(p)
    ensures PayloadOk(rules, sources, Render(p, raw)) <==>
              (forall t | t in Targets() :: CellOk(rules, sources, p, raw, t)) && Distinguishable(rules, Overlaid(p, raw))
    ensures PayloadOf(Render(p, raw)) == p.(options := Overlaid(p, raw))
  {
    assert Full(p.options) && VersionsOk(p);
    hide StatementOk;
    hide Distinguishable;
    hide CleanPayload;
    hide CellOk;
    hide PayloadShaped;
    hide RawStatement;
    hide Render;
    hide OptionsOf;
    hide Overlaid;
    hide VersionsOk;
    hide CleanText;
    RenderIsShaped(p, raw);
    OverlayVersions(p, raw);
    OverlayOptions(rules, sources, p, raw);
    OverlayStatements(rules, sources, p, raw);
  }

  lemma GoodIsClean(rules: Rules, sources: Sources, p: Payload)
    requires GoodPayload(rules, sources, p)
    ensures CleanPayload(p)
  {
    hide CleanStatement;
    hide StatementHolds;
  }

  /** A clean payload is read back as itself, and accepted exactly when it is good. */
  lemma CleanReadsBack(rules: Rules, sources: Sources, p: Payload)
    requires CleanPayload(p)
    ensures Validate(rules, sources, Render(p, map[])) == if GoodPayload(rules, sources, p) then Valid(p) else Invalid
  {
    hide PayloadOf;
    hide Render;
    hide PayloadOk;
    hide GoodStatement;
    hide StatementOk;
    hide CleanStatement;
    OverlayChecks(rules, sources, p, map[]);
    assert Overlaid(p, map[]) == p.options;
  }

  /** The fixpoint: the validator accepts a payload and returns it unchanged exactly when it is good. */
  lemma ValidatorFixpoint(rules: Rules, sources: Sources, p: Payload)
    requires Full(p.options)
    ensures GoodPayload(rules, sources, p) <==> Validate(rules, sources, Render(p, map[])) == Valid(p)
  {
    hide PayloadOk;
    hide PayloadOf;
    hide Render;
    hide GoodPayload;
    if GoodPayload(rules, sources, p) {
      GoodIsClean(rules, sources, p);
      CleanReadsBack(rules, sources, p);
    } else if PayloadOk(rules, sources, Render(p, map[])) {
      AcceptedIsGood(rules, sources, Render(p, map[]));
    }
  }

  /** What the validator returns, it accepts again and returns unchanged. */
  lemma ValidationIsIdempotent(rules: Rules, sources: Sources, j: Json)
    requires Validate(rules, sources, j).Valid?
    ensures Validate(rules, sources, Render(Validate(rules, sources, j).payload, map[])) == Validate(rules, sources, j)
  {
    hide PayloadOk;
    hide GoodPayload;
    hide Render;
    AcceptedIsGood(rules, sources, j);
    ValidatorFixpoint(rules, sources, PayloadOf(j));
  }

  // ---- what the comparison of names and contents amounts to

  lemma {:induction false} SquashKeepsInk(s: string)
    ensures Squash(s) == "" <==> !HasInk(s)
    decreases |s|
  {
    var t := DropLeft(s, IsSpace);
    var i := DropLeftIsSuffix(s, IsSpace);
    DropLeftShrinks(s, IsSpace);
    WordWithin(t);
    if t != "" {
      assert s[i] == t[0] && !IsSpace(s[i]);
      assert Word(t) != "";
    }
  }

  /** The comparison form of a visible text is never empty, so "only if all are given" excludes nothing. */
  lemma SignatureIsVisible(rules: Rules, text: string)
    requires KeepsInk(rules) && CleanString(text)
    ensures Signature(rules, text) != ""
  {
    assert HasInk(text) by { assert !IsSpace(text[0]); }
    SquashKeepsInk(rules.lower(text));
  }
}
