/** Rendering of the three artifacts as markdown text. The verdict is built
    imperatively, section by section, as the orchestrator does; its
    meaning is the function VerdictText. The two case renderers are single
    expressions. */
module Formatting {
  import opened Wrappers
  import opened Text
  import opened Models

  // ---------------------------------------------------------------------
  // Verdict: specification
  // ---------------------------------------------------------------------

  function VerdictHeadline(d: FinalDecision): string
  {
    "## \U{1F4CB} FINAL VERDICT: " + DecisionValue(d.decision) + "\n"
  }

  function WeightingLine(d: FinalDecision): string
  {
    "**Weighting:** Bull " + IntToDecimal(d.bullCaseWeight) + "% / Bear "
    + IntToDecimal(d.bearCaseWeight) + "%\n"
  }

  /** The fixed opening block: headline, thesis and weighting. */
  function VerdictHeader(d: FinalDecision): string
  {
    VerdictHeadline(d) + "\n**Investment Thesis:**\n" + d.investmentThesis + "\n\n" + WeightingLine(d)
  }

  /** A titled list section, present only for a non-empty list. */
  function Section(title: string, items: seq<string>): string
  {
    if items == [] then "" else "\n**" + title + ":**\n" + BulletLines(items)
  }

  /** An optional list counts as empty when absent, as Python's truthiness does. */
  function OrEmpty(o: Option<seq<string>>): seq<string>
  {
    match o
    case None => []
    case Some(xs) => xs
  }

  function MitigationText(rm: RiskMitigation): string
  {
    rm.risk + ": " + rm.mitigation
  }

  function MitigationTexts(ms: seq<RiskMitigation>): seq<string>
  {
    seq(|ms|, k requires 0 <= k < |ms| => MitigationText(ms[k]))
  }

  /** The check-size line, present only for a set, non-empty size. */
  function CheckSizeLine(size: Option<string>): string
  {
    match size
    case None => ""
    case Some(s) => if s == "" then "" else "\n**Recommended Check Size:** " + s + "\n"
  }

  function VerdictText(d: FinalDecision): string
  {
    VerdictHeader(d)
    + Section("Risk Mitigations", MitigationTexts(d.riskMitigations))
    + Section("Unresolved Risks", d.unresolvedRisks)
    + CheckSizeLine(d.recommendedCheckSize)
    + Section("Key Due Diligence", OrEmpty(d.keyDueDiligence))
    + Section("Follow-up Questions", OrEmpty(d.followUpQuestions))
  }

  // ---------------------------------------------------------------------
  // Verdict: the accumulating renderer
  // ---------------------------------------------------------------------

  /** The risk-mitigation section: a heading, then one appended
      `- risk: mitigation` line per element, in list order. */
  method AppendMitigations(verdict: string, ms: seq<RiskMitigation>) returns (r: string)
    ensures r == verdict + Section("Risk Mitigations", MitigationTexts(ms))
  {
    r := verdict;
    if ms != [] {
      r := r + ("\n**" + "Risk Mitigations" + ":**\n");
      ghost var start, texts := r, MitigationTexts(ms);
      for i := 0 to |ms|
        invariant r == start + BulletLines(texts[..i])
      {
        var rm := ms[i];
        assert texts[..i + 1] == texts[..i] + [rm.risk + ": " + rm.mitigation];
        BulletLineStep(start, texts[..i], rm.risk + ": " + rm.mitigation, r);
        r := r + "- " + (rm.risk + ": " + rm.mitigation) + "\n";
      }
      assert texts[..|ms|] == texts;
      Assoc(verdict, "\n**" + "Risk Mitigations" + ":**\n", BulletLines(texts));
    }
  }

  /** A plain list section: a heading, then one appended `- item` line per
      element, in list order. */
  method AppendSection(verdict: string, title: string, items: seq<string>) returns (r: string)
    ensures r == verdict + Section(title, items)
  {
    r := verdict;
    if items != [] {
      r := r + ("\n**" + title + ":**\n");
      ghost var start := r;
      for i := 0 to |items|
        invariant r == start + BulletLines(items[..i])
      {
        assert items[..i + 1] == items[..i] + [items[i]];
        BulletLineStep(start, items[..i], items[i], r);
        r := r + "- " + items[i] + "\n";
      }
      assert items[..|items|] == items;
      Assoc(verdict, "\n**" + title + ":**\n", BulletLines(items));
    }
  }

  /** format_verdict: the header, then each guarded section in turn (an
      absent optional list is skipped like an empty one). */
  method FormatVerdict(d: FinalDecision) returns (verdict: string)
    ensures verdict == VerdictText(d)
  {
    verdict := VerdictHeader(d);
    verdict := AppendMitigations(verdict, d.riskMitigations);
    verdict := AppendSection(verdict, "Unresolved Risks", d.unresolvedRisks);
    ghost var before := verdict;
    if d.recommendedCheckSize.Some? && d.recommendedCheckSize.value != "" {
      var size := d.recommendedCheckSize.value;
      Assoc(verdict, "\n**Recommended Check Size:** " + size, "\n");
      Assoc(verdict, "\n**Recommended Check Size:** ", size);
      verdict := verdict + "\n**Recommended Check Size:** " + size + "\n";
    } else {
      assert verdict + "" == verdict;
    }
    assert verdict == before + CheckSizeLine(d.recommendedCheckSize);
    verdict := AppendSection(verdict, "Key Due Diligence", OrEmpty(d.keyDueDiligence));
    verdict := AppendSection(verdict, "Follow-up Questions", OrEmpty(d.followUpQuestions));
  }

  // ---------------------------------------------------------------------
  // Verdict: properties
  // ---------------------------------------------------------------------

  /** The verdict opens with the `FINAL VERDICT: <decision>` headline and
      always carries the weighting line. */
  lemma VerdictOpensWithHeadline(d: FinalDecision)
    ensures VerdictHeadline(d) <= VerdictText(d)
    ensures Occurs(WeightingLine(d), VerdictText(d))
  {
    var h := VerdictHeadline(d);
    var t1 := h + "\n**Investment Thesis:**\n";
    var t2 := t1 + d.investmentThesis;
    var t3 := t2 + "\n\n";
    var hd := t3 + WeightingLine(d);
    assert hd == VerdictHeader(d);
    var sm := Section("Risk Mitigations", MitigationTexts(d.riskMitigations));
    var su := Section("Unresolved Risks", d.unresolvedRisks);
    var sc := CheckSizeLine(d.recommendedCheckSize);
    var sd := Section("Key Due Diligence", OrEmpty(d.keyDueDiligence));
    var sf := Section("Follow-up Questions", OrEmpty(d.followUpQuestions));
    assert VerdictText(d) == hd + sm + su + sc + sd + sf;

    PrefixExtend(h, h, "\n**Investment Thesis:**\n");
    PrefixExtend(h, t1, d.investmentThesis);
    PrefixExtend(h, t2, "\n\n");
    PrefixExtend(h, t3, WeightingLine(d));
    PrefixExtend(h, hd, sm);
    PrefixExtend(h, hd + sm, su);
    PrefixExtend(h, hd + sm + su, sc);
    PrefixExtend(h, hd + sm + su + sc, sd);
    PrefixExtend(h, hd + sm + su + sc + sd, sf);

    var w := WeightingLine(d);
    OccursAtEnd(w, t3);
    OccursExtend(w, hd, sm);
    OccursExtend(w, hd + sm, su);
    OccursExtend(w, hd + sm + su, sc);
    OccursExtend(w, hd + sm + su + sc, sd);
    OccursExtend(w, hd + sm + su + sc + sd, sf);
  }

  /** A section contributes text exactly when its guard holds: dropping its
      list (or the check size) leaves the verdict unchanged iff the list was
      already empty (or the size unset or empty). */
  lemma VerdictSectionsGuarded(d: FinalDecision)
    ensures VerdictText(d.(riskMitigations := [])) == VerdictText(d) <==> d.riskMitigations == []
    ensures VerdictText(d.(unresolvedRisks := [])) == VerdictText(d) <==> d.unresolvedRisks == []
    ensures VerdictText(d.(recommendedCheckSize := None)) == VerdictText(d)
        <==> (d.recommendedCheckSize == None || d.recommendedCheckSize == Some(""))
    ensures VerdictText(d.(keyDueDiligence := None)) == VerdictText(d)
        <==> (d.keyDueDiligence == None || d.keyDueDiligence == Some([]))
    ensures VerdictText(d.(followUpQuestions := None)) == VerdictText(d)
        <==> (d.followUpQuestions == None || d.followUpQuestions == Some([]))
  {
    assert MitigationTexts([]) == [];
    assert |MitigationTexts(d.riskMitigations)| == |d.riskMitigations|;
  }

  /** With no risk lists, no check size and no optional lists, the verdict is
      exactly the header. */
  lemma VerdictOfBareDecision(d: FinalDecision)
    requires d.riskMitigations == [] && d.unresolvedRisks == []
    requires d.recommendedCheckSize == None
    requires d.keyDueDiligence == None && d.followUpQuestions == None
    ensures VerdictText(d) == VerdictHeader(d)
  {
    assert MitigationTexts([]) == [];
  }

  /** The section's bullet lines, in list order: line k renders item k,
      after the lines of the items before it. */
  lemma SectionLines(title: string, items: seq<string>, k: nat)
    requires k < |items|
    ensures Section(title, items)
         == "\n**" + title + ":**\n" + (BulletLines(items[..k]) + BulletLine(items[k])
            + BulletLines(items[k + 1..]))
  {
    BulletLinesAt(items, k);
  }

  lemma SectionItemOccurs(title: string, items: seq<string>, k: nat)
    requires k < |items|
    ensures Occurs(BulletLine(items[k]), Section(title, items))
  {
    BulletLineOccurs(items, k);
    OccursPrepend(BulletLine(items[k]), "\n**" + title + ":**\n", BulletLines(items));
  }

  /** Every mitigation is rendered as `- risk: mitigation` and every
      unresolved risk, due-diligence item and follow-up question as
      `- item`, each on its own line. */
  lemma VerdictListsEveryItem(d: FinalDecision, k: nat)
    ensures k < |d.riskMitigations| ==>
      Occurs(BulletLine(MitigationText(d.riskMitigations[k])), VerdictText(d))
    ensures k < |d.unresolvedRisks| ==> Occurs(BulletLine(d.unresolvedRisks[k]), VerdictText(d))
    ensures k < |OrEmpty(d.keyDueDiligence)| ==>
      Occurs(BulletLine(OrEmpty(d.keyDueDiligence)[k]), VerdictText(d))
    ensures k < |OrEmpty(d.followUpQuestions)| ==>
      Occurs(BulletLine(OrEmpty(d.followUpQuestions)[k]), VerdictText(d))
  {
    var h := VerdictHeader(d);
    var sm := Section("Risk Mitigations", MitigationTexts(d.riskMitigations));
    var su := Section("Unresolved Risks", d.unresolvedRisks);
    var sc := CheckSizeLine(d.recommendedCheckSize);
    var sd := Section("Key Due Diligence", OrEmpty(d.keyDueDiligence));
    var sf := Section("Follow-up Questions", OrEmpty(d.followUpQuestions));
    assert VerdictText(d) == h + sm + su + sc + sd + sf;
    if k < |d.riskMitigations| {
      var line := BulletLine(MitigationText(d.riskMitigations[k]));
      SectionItemOccurs("Risk Mitigations", MitigationTexts(d.riskMitigations), k);
      OccursPrepend(line, h, sm);
      OccursExtend(line, h + sm, su);
      OccursExtend(line, h + sm + su, sc);
      OccursExtend(line, h + sm + su + sc, sd);
      OccursExtend(line, h + sm + su + sc + sd, sf);
    }
    if k < |d.unresolvedRisks| {
      var line := BulletLine(d.unresolvedRisks[k]);
      SectionItemOccurs("Unresolved Risks", d.unresolvedRisks, k);
      OccursPrepend(line, h + sm, su);
      OccursExtend(line, h + sm + su, sc);
      OccursExtend(line, h + sm + su + sc, sd);
      OccursExtend(line, h + sm + su + sc + sd, sf);
    }
    if k < |OrEmpty(d.keyDueDiligence)| {
      var line := BulletLine(OrEmpty(d.keyDueDiligence)[k]);
      SectionItemOccurs("Key Due Diligence", OrEmpty(d.keyDueDiligence), k);
      OccursPrepend(line, h + sm + su + sc, sd);
      OccursExtend(line, h + sm + su + sc + sd, sf);
    }
    if k < |OrEmpty(d.followUpQuestions)| {
      var line := BulletLine(OrEmpty(d.followUpQuestions)[k]);
      SectionItemOccurs("Follow-up Questions", OrEmpty(d.followUpQuestions), k);
      OccursPrepend(line, h + sm + su + sc + sd, sf);
    }
  }

  // ---------------------------------------------------------------------
  // Bull and bear cases
  // ---------------------------------------------------------------------

  /** `### <heading>`, the newline-joined bullets, then a blank line. */
  function ListBlock(heading: string, items: seq<string>): string
  {
    "### " + heading + "\n" + JoinedBullets(items) + "\n\n"
  }

  /** Each item of a list block is shown as its own `- item` line. */
  lemma ListBlockItemOccurs(heading: string, items: seq<string>, k: nat)
    requires k < |items|
    ensures Occurs(BulletLine(items[k]), ListBlock(heading, items))
  {
    var p := "### " + heading + "\n";
    var jb := JoinedBullets(items);
    JoinedBulletsAreLines(items);
    Assoc(p, jb, "\n");
    Assoc(p + jb, "\n", "\n");
    assert ListBlock(heading, items) == p + BulletLines(items) + "\n";
    BulletLineOccurs(items, k);
    OccursPrepend(BulletLine(items[k]), p, BulletLines(items));
    OccursExtend(BulletLine(items[k]), p + BulletLines(items), "\n");
  }

  function BullCaseHeadline(b: BullCase): string
  {
    "## \U{1F402} BULL CASE: " + b.startupName + "\n"
  }

  function BullCaseIntro(b: BullCase): string
  {
    BullCaseHeadline(b) + "\n**" + b.oneLiner + "**\n\n"
    + "### Market Opportunity\n" + b.marketOpportunity + "\n\n"
    + "### Competitive Moat\n" + b.competitiveMoat + "\n\n"
  }

  function BullCaseOutro(b: BullCase): string
  {
    "**Confidence Score: " + IntToDecimal(b.confidenceScore) + "/10**\n\n"
    + "**Thesis:** " + b.investmentThesisSummary + "\n"
  }

  /** format_bull_case. */
  function FormatBullCase(b: BullCase): string
  {
    BullCaseIntro(b)
    + ListBlock("Growth Catalysts", b.growthCatalysts)
    + ListBlock("Traction", b.tractionHighlights)
    + ListBlock("Team Strengths", b.teamStrengths)
    + ListBlock("Comparable Exits", b.comparableExits)
    + BullCaseOutro(b)
  }

  function BearCaseHeadline(b: BearCase): string
  {
    "## \U{1F43B} BEAR CASE: " + b.startupName + "\n"
  }

  function RiskScoreLine(b: BearCase): string
  {
    "**Risk Severity Score: " + IntToDecimal(b.riskSeverityScore) + "/10**"
  }

  /** format_bear_case. */
  function FormatBearCase(b: BearCase): string
  {
    BearCaseHeadline(b) + "\n"
    + ListBlock("Market Risks", b.marketRisks)
    + ListBlock("Execution Risks", b.executionRisks)
    + ListBlock("Competitive Threats", b.competitiveThreats)
    + ListBlock("Financial Concerns", b.financialConcerns)
    + ListBlock("Key Weaknesses", b.keyWeaknesses)
    + "### Kill Scenario\n" + b.killScenario + "\n\n"
    + RiskScoreLine(b)
  }

  /** The bull case opens with its headline, ends with a newline, and shows
      every growth catalyst, traction highlight, team strength and
      comparable exit as its own `- item` line. */
  lemma BullCaseLayout(b: BullCase, k: nat)
    ensures BullCaseHeadline(b) <= FormatBullCase(b)
    ensures FormatBullCase(b)[|FormatBullCase(b)| - 1] == '\n'
    ensures k < |b.growthCatalysts| ==> Occurs(BulletLine(b.growthCatalysts[k]), FormatBullCase(b))
    ensures k < |b.tractionHighlights| ==> Occurs(BulletLine(b.tractionHighlights[k]), FormatBullCase(b))
    ensures k < |b.teamStrengths| ==> Occurs(BulletLine(b.teamStrengths[k]), FormatBullCase(b))
    ensures k < |b.comparableExits| ==> Occurs(BulletLine(b.comparableExits[k]), FormatBullCase(b))
  {
    var h := BullCaseHeadline(b);
    var intro := BullCaseIntro(b);
    var g := ListBlock("Growth Catalysts", b.growthCatalysts);
    var t := ListBlock("Traction", b.tractionHighlights);
    var m := ListBlock("Team Strengths", b.teamStrengths);
    var e := ListBlock("Comparable Exits", b.comparableExits);
    var o := BullCaseOutro(b);
    assert FormatBullCase(b) == intro + g + t + m + e + o;

    assert h <= intro;
    PrefixExtend(h, intro, g);
    PrefixExtend(h, intro + g, t);
    PrefixExtend(h, intro + g + t, m);
    PrefixExtend(h, intro + g + t + m, e);
    PrefixExtend(h, intro + g + t + m + e, o);

    if k < |b.growthCatalysts| {
      var line := BulletLine(b.growthCatalysts[k]);
      ListBlockItemOccurs("Growth Catalysts", b.growthCatalysts, k);
      OccursPrepend(line, intro, g);
      OccursExtend(line, intro + g, t);
      OccursExtend(line, intro + g + t, m);
      OccursExtend(line, intro + g + t + m, e);
      OccursExtend(line, intro + g + t + m + e, o);
    }
    if k < |b.tractionHighlights| {
      var line := BulletLine(b.tractionHighlights[k]);
      ListBlockItemOccurs("Traction", b.tractionHighlights, k);
      OccursPrepend(line, intro + g, t);
      OccursExtend(line, intro + g + t, m);
      OccursExtend(line, intro + g + t + m, e);
      OccursExtend(line, intro + g + t + m + e, o);
    }
    if k < |b.teamStrengths| {
      var line := BulletLine(b.teamStrengths[k]);
      ListBlockItemOccurs("Team Strengths", b.teamStrengths, k);
      OccursPrepend(line, intro + g + t, m);
      OccursExtend(line, intro + g + t + m, e);
      OccursExtend(line, intro + g + t + m + e, o);
    }
    if k < |b.comparableExits| {
      var line := BulletLine(b.comparableExits[k]);
      ListBlockItemOccurs("Comparable Exits", b.comparableExits, k);
      OccursPrepend(line, intro + g + t + m, e);
      OccursExtend(line, intro + g + t + m + e, o);
    }
  }

  /** The bear case opens with its headline, ends with the risk-score line
      (no trailing newline), and never shows the regulatory or technology
      risks: changing them leaves the text unchanged. */
  lemma BearCaseLayout(b: BearCase, regulatory: Option<seq<string>>, technology: Option<seq<string>>)
    ensures BearCaseHeadline(b) <= FormatBearCase(b)
    ensures var s := FormatBearCase(b);
            |s| >= |RiskScoreLine(b)| && s[|s| - |RiskScoreLine(b)|..] == RiskScoreLine(b)
    ensures FormatBearCase(b)[|FormatBearCase(b)| - 1] == '*'
    ensures FormatBearCase(b.(regulatoryRisks := regulatory, technologyRisks := technology))
         == FormatBearCase(b)
  {
    var h := BearCaseHeadline(b);
    var line := RiskScoreLine(b);
    var s := FormatBearCase(b);
    var body := s[..|s| - |line|];
    assert s == body + line;
    assert s[|s| - |line|..] == line;
    var p1 := h + "\n";
    var p2 := p1 + ListBlock("Market Risks", b.marketRisks);
    var p3 := p2 + ListBlock("Execution Risks", b.executionRisks);
    var p4 := p3 + ListBlock("Competitive Threats", b.competitiveThreats);
    var p5 := p4 + ListBlock("Financial Concerns", b.financialConcerns);
    var p6 := p5 + ListBlock("Key Weaknesses", b.keyWeaknesses);
    var p7 := p6 + "### Kill Scenario\n";
    var p8 := p7 + b.killScenario;
    var p9 := p8 + "\n\n";
    assert s == p9 + line;
    PrefixExtend(h, h, "\n");
    PrefixExtend(h, p1, ListBlock("Market Risks", b.marketRisks));
    PrefixExtend(h, p2, ListBlock("Execution Risks", b.executionRisks));
    PrefixExtend(h, p3, ListBlock("Competitive Threats", b.competitiveThreats));
    PrefixExtend(h, p4, ListBlock("Financial Concerns", b.financialConcerns));
    PrefixExtend(h, p5, ListBlock("Key Weaknesses", b.keyWeaknesses));
    PrefixExtend(h, p6, "### Kill Scenario\n");
    PrefixExtend(h, p7, b.killScenario);
    PrefixExtend(h, p8, "\n\n");
    PrefixExtend(h, p9, line);
  }

  /** Each market risk, execution risk, competitive threat, financial concern
      and key weakness is shown as its own `- item` line of the bear case. */
  lemma BearCaseListsRisks(b: BearCase, k: nat)
    ensures k < |b.marketRisks| ==> Occurs(BulletLine(b.marketRisks[k]), FormatBearCase(b))
    ensures k < |b.executionRisks| ==> Occurs(BulletLine(b.executionRisks[k]), FormatBearCase(b))
    ensures k < |b.competitiveThreats| ==> Occurs(BulletLine(b.competitiveThreats[k]), FormatBearCase(b))
    ensures k < |b.financialConcerns| ==> Occurs(BulletLine(b.financialConcerns[k]), FormatBearCase(b))
    ensures k < |b.keyWeaknesses| ==> Occurs(BulletLine(b.keyWeaknesses[k]), FormatBearCase(b))
  {
    var p1 := BearCaseHeadline(b) + "\n";
    var mr := ListBlock("Market Risks", b.marketRisks);
    var er := ListBlock("Execution Risks", b.executionRisks);
    var ct := ListBlock("Competitive Threats", b.competitiveThreats);
    var fc := ListBlock("Financial Concerns", b.financialConcerns);
    var kw := ListBlock("Key Weaknesses", b.keyWeaknesses);
    var a := "### Kill Scenario\n";
    var c := "\n\n";
    var line := RiskScoreLine(b);
    var ks := b.killScenario;
    assert FormatBearCase(b) == p1 + mr + er + ct + fc + kw + a + ks + c + line;
    if k < |b.marketRisks| {
      var x := BulletLine(b.marketRisks[k]);
      ListBlockItemOccurs("Market Risks", b.marketRisks, k);
      OccursPrepend(x, p1, mr);
      OccursExtend(x, p1 + mr, er);
      OccursExtend(x, p1 + mr + er, ct);
      OccursExtend(x, p1 + mr + er + ct, fc);
      OccursExtend(x, p1 + mr + er + ct + fc, kw);
      OccursTail(x, p1 + mr + er + ct + fc + kw, a, ks, c, line);
    }
    if k < |b.executionRisks| {
      var x := BulletLine(b.executionRisks[k]);
      ListBlockItemOccurs("Execution Risks", b.executionRisks, k);
      OccursPrepend(x, p1 + mr, er);
      OccursExtend(x, p1 + mr + er, ct);
      OccursExtend(x, p1 + mr + er + ct, fc);
      OccursExtend(x, p1 + mr + er + ct + fc, kw);
      OccursTail(x, p1 + mr + er + ct + fc + kw, a, ks, c, line);
    }
    if k < |b.competitiveThreats| {
      var x := BulletLine(b.competitiveThreats[k]);
      ListBlockItemOccurs("Competitive Threats", b.competitiveThreats, k);
      OccursPrepend(x, p1 + mr + er, ct);
      OccursExtend(x, p1 + mr + er + ct, fc);
      OccursExtend(x, p1 + mr + er + ct + fc, kw);
      OccursTail(x, p1 + mr + er + ct + fc + kw, a, ks, c, line);
    }
    if k < |b.financialConcerns| {
      var x := BulletLine(b.financialConcerns[k]);
      ListBlockItemOccurs("Financial Concerns", b.financialConcerns, k);
      OccursPrepend(x, p1 + mr + er + ct, fc);
      OccursExtend(x, p1 + mr + er + ct + fc, kw);
      OccursTail(x, p1 + mr + er + ct + fc + kw, a, ks, c, line);
    }
    if k < |b.keyWeaknesses| {
      var x := BulletLine(b.keyWeaknesses[k]);
      ListBlockItemOccurs("Key Weaknesses", b.keyWeaknesses, k);
      OccursPrepend(x, p1 + mr + er + ct + fc, kw);
      OccursTail(x, p1 + mr + er + ct + fc + kw, a, ks, c, line);
    }
  }

  lemma OccursTail(x: string, s: string, a: string, ks: string, c: string, line: string)
    requires Occurs(x, s)
    ensures Occurs(x, s + a + ks + c + line)
  {
    OccursExtend(x, s, a);
    OccursExtend(x, s + a, ks);
    OccursExtend(x, s + a + ks, c);
    OccursExtend(x, s + a + ks + c, line);
  }
}
