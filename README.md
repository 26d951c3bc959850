# AI-VC debate: validated artifacts, rendering and the result cache

A startup-analysis app runs three producers. An optimist writes a **BullCase**, a skeptic writes a **BearCase**, and an investment committee writes a **FinalDecision**. This project models the deterministic core around those producers.

- **Artifact validation** (`models.dfy`, module `Models`). Each record is built by a total function. It returns the record itself, unchanged, when every field constraint holds. Otherwise it returns a tagged `ValidationError`.
  - Errors come in three kinds:
    - The field-level violations (`min_length`, `ge`, `le`), in field order.
    - The INVEST-with-unresolved-risks block, with the count and the list.
    - The weight-sum error, with both weights.
  - `FinalDecision` is checked in the order the source uses: field constraints first. Then the after-validator `invest_requires_addressed_risks` runs the INVEST rule before the weight-sum rule.
- **Rendering** (`formatting.dfy`, module `Formatting`).
  - `FormatVerdict` is an imperative string builder. It appends the header, then each guarded section, with one loop per list, as `format_verdict` does. Its specification is the function `VerdictText`, and the lemmas are stated over that function.
  - `FormatBullCase` and `FormatBearCase` are the two single-expression renderers. Each list in them is a newline join of `- item` bullets.
- **Result cache** (`app.dfy`, module `App`). The class `Analyzer` holds the process-wide `analysis_results` map as a `map<string, CacheEntry>` field.
  - `AnalyzeStartup` is the blank-name guard and the cache-writing tail of `analyze_startup`.
  - The two toggle handlers are pure functions of the cache and the current view. They only read the cache.
  - The class invariant `Valid()` holds at every step. The cache is either empty or holds all four entries of one completed run, and in that case the cached verdict is `VerdictText` of the cached decision.
- **Python string behaviour** (`text.dfy`, module `Text`). This module models `str(int)`, `str.isspace`/`str.strip()`, `sep.join` and bullet lines. `wrappers.dfy` holds `Option` and `Result`.

The three producers are agent runs whose output comes from a language model. They are parameters here: `AnalyzeStartup` receives the three candidate records and validates them in the order the run produces them. The bull case is validated first, then the bear case, and the committee's decision last.

The view tag that the interface keeps as a string ("none", "bull" or "bear") is the datatype `App.View`. `App.ViewTag` maps each view to its tag, and `App.ViewTagsDistinguishViews` shows that the source's tag comparisons are exactly tests of the view. The interface only ever stores one of those three tags.

## Model

| member | source | states |
|---|---|---|
| Models.DecisionValue | AIStartupAnalyzer/models.py:37-40 | each decision's string value is "INVEST", "PASS" or "FOLLOW_UP", and each string belongs to exactly that decision |
| Models.CheckMinLength | AIStartupAnalyzer/models.py:13 | a list field reports no error iff it has at least the minimum length; otherwise exactly one TooShort error carrying the bound and the actual length |
| Models.CheckRange | AIStartupAnalyzer/models.py:17 | an int field reports no error iff it lies in [lo, hi]; below lo gives one BelowMinimum, above hi gives one AboveMaximum, each carrying the bound and the value |
| Models.ValidateBullCase | AIStartupAnalyzer/models.py:7-18 | accepted iff growth_catalysts has at least 3 entries and confidence_score is in [1,10], so exactly 3 catalysts is accepted; on success the same record; on failure the field errors are the growth_catalysts check followed by the confidence_score check, so exactly one error per violated constraint, in field order |
| Models.ValidateBearCase | AIStartupAnalyzer/models.py:22-33 | accepted iff market_risks ≥ 2, execution_risks ≥ 2, key_weaknesses ≥ 3 and risk_severity_score is in [1,10]; on success the same record; on failure the field errors are the market_risks, execution_risks, key_weaknesses and risk_severity_score checks in that order, so exactly one error per violated constraint |
| Models.BearCaseOptionalListsFree | AIStartupAnalyzer/models.py:29-30 | regulatory_risks and technology_risks, absent or present with any contents, never change whether a BearCase is accepted |
| Models.InvestRequiresAddressedRisks | AIStartupAnalyzer/models.py:71-87 | the guard passes iff no INVEST with unresolved risks and the weights sum to 100; INVEST with risks gives the InvestBlocked error with the count and the risks; the weight-sum error happens exactly when the INVEST rule passes and the sum is not 100, and it carries both weights; on success the record is returned unchanged |
| Models.ValidateFinalDecision | AIStartupAnalyzer/models.py:49-87 | accepted iff both weights are in [0,100], the INVEST rule holds and the weights sum to 100; field errors exactly when a weight is out of range, and then they are the bull_case_weight check followed by the bear_case_weight check, each naming its weight, the bound it crosses and its value; otherwise InvestBlocked is reported ahead of the weight-sum error |
| Models.InvestWithUnresolvedRisksRejected | AIStartupAnalyzer/models.py:74-79 | INVEST with a non-empty unresolved_risks is always rejected; with in-range weights the error is InvestBlocked, even when the weights also miss 100 |
| Models.WeightSumRejected | AIStartupAnalyzer/models.py:81-85 | a weight sum other than 100, 0/0 and 100/100 included, is always rejected; when nothing earlier fails, the error is WeightSumNot100 with both weights |
| Models.PassAndFollowUpTolerateRisks | AIStartupAnalyzer/models.py:74-87 | PASS and FOLLOW_UP with in-range weights summing to 100 are accepted unchanged, whatever the unresolved risks |
| Models.InvestWithDefaultListsAccepted | AIStartupAnalyzer/models.py:55-63 | built with the default arguments, both risk lists are empty, and an INVEST decision with in-range weights summing to 100 is accepted unchanged |
| Text.NatToDecimal | ai_vc_debate/orchestrator.py:56 | the rendered number is a non-empty digit string with no leading zero whose decimal value is the number |
| Text.IntToDecimal | ai_vc_debate/orchestrator.py:109 | non-negative numbers render as their digits; negative numbers render as '-' followed by the digits of the magnitude |
| Text.TrimStart | ai_vc_debate/app.py:18 | the result is a suffix of the input that does not start with whitespace, and everything dropped before it is whitespace |
| Text.TrimEnd | ai_vc_debate/app.py:18 | the result is a prefix of the input that does not end with whitespace, and everything dropped after it is whitespace |
| Text.Strip | ai_vc_debate/app.py:18 | `str.strip()`: the result is a slice of the name with whitespace only before and after it, and it neither starts nor ends with whitespace; Text.StripEmptyIffBlank states when it is empty |
| Text.StripEmptyIffBlank | ai_vc_debate/app.py:18 | `not name.strip()` holds exactly when every character of the name is whitespace, the empty name included |
| Text.JoinedBulletsAreLines | ai_vc_debate/orchestrator.py:98-107 | a joined bullet list is empty for an empty list; otherwise, followed by a newline, it is exactly the item lines in order |
| Text.JoinedBulletsLineCount | ai_vc_debate/orchestrator.py:98-107 | for items without line breaks, a non-empty joined list has one line break fewer than items, so its line count equals the list length |
| Text.BulletLinesCount | ai_vc_debate/orchestrator.py:64-67 | for items without line breaks, the appended bullet lines contain exactly one line break per item |
| Text.BulletLinesAt | ai_vc_debate/orchestrator.py:66-67 | the k-th bullet line renders item k, preceded by exactly the lines of the items before it and followed by those after it |
| Text.BulletLineStep | ai_vc_debate/orchestrator.py:62 | one loop turn of `text += f"- {item}\n"` extends the lines seen so far by the next item's line |
| Formatting.AppendMitigations | ai_vc_debate/orchestrator.py:59-62 | the loop appends the Risk Mitigations section: nothing for an empty list, else the heading and one `- risk: mitigation` line per element in order |
| Formatting.AppendSection | ai_vc_debate/orchestrator.py:64-67 | the loop appends a titled section: nothing for an empty list, else the heading and one `- item` line per element in order |
| Formatting.VerdictText | ai_vc_debate/orchestrator.py:49-82 | the reference text of `format_verdict`, reproducing its f-string header and each truthiness-guarded section in order; Formatting.FormatVerdict is proved equal to it, and VerdictOpensWithHeadline, VerdictSectionsGuarded, VerdictOfBareDecision and VerdictListsEveryItem state its properties |
| Formatting.FormatVerdict | ai_vc_debate/orchestrator.py:49-82 | the accumulated verdict equals VerdictText, the header followed by each guarded section in source order |
| Formatting.VerdictOpensWithHeadline | ai_vc_debate/orchestrator.py:51-57 | the verdict always begins with `## 📋 FINAL VERDICT: <decision value>` and always contains the `Bull X% / Bear Y%` weighting line |
| Formatting.VerdictSectionsGuarded | ai_vc_debate/orchestrator.py:59-80 | each section contributes text iff its guard holds: clearing risk_mitigations or unresolved_risks, or unsetting the check size, due diligence or follow-up questions, leaves the verdict unchanged iff the list was already empty, or the value unset or empty |
| Formatting.VerdictOfBareDecision | ai_vc_debate/orchestrator.py:49-57 | without lists, check size or optional lists, the verdict is exactly the header block |
| Formatting.SectionLines | ai_vc_debate/orchestrator.py:64-80 | a section is its heading followed by the bullet lines, line k being item k after the lines of items 0..k-1 |
| Formatting.SectionItemOccurs | ai_vc_debate/orchestrator.py:64-80 | every item of a section's list appears in the section as its own bullet line |
| Formatting.VerdictListsEveryItem | ai_vc_debate/orchestrator.py:59-80 | every mitigation appears in the verdict as `- risk: mitigation` on its own line, and every unresolved risk, due-diligence item and follow-up question as `- item` |
| Formatting.ListBlockItemOccurs | ai_vc_debate/orchestrator.py:97-98 | every item of a case list block appears in it as its own `- item` line |
| Formatting.FormatBullCase | ai_vc_debate/orchestrator.py:85-112 | `format_bull_case`: reproduces the f-string section by section, each list as a ListBlock of newline-joined bullets; its properties are stated by Formatting.BullCaseLayout |
| Formatting.BullCaseLayout | ai_vc_debate/orchestrator.py:85-112 | the bull case opens with `## 🐂 BULL CASE: <name>`, ends with a newline, and shows every growth catalyst, traction highlight, team strength and comparable exit as its own line |
| Formatting.FormatBearCase | ai_vc_debate/orchestrator.py:115-137 | `format_bear_case`: reproduces the f-string section by section, each list as a ListBlock of newline-joined bullets; its properties are stated by Formatting.BearCaseLayout and Formatting.BearCaseListsRisks |
| Formatting.BearCaseLayout | ai_vc_debate/orchestrator.py:115-137 | the bear case opens with `## 🐻 BEAR CASE: <name>` and ends with the risk-score line, with no trailing newline; regulatory and technology risks never change the text |
| Formatting.BearCaseListsRisks | ai_vc_debate/orchestrator.py:119-132 | every market risk, execution risk, competitive threat, financial concern and key weakness appears as its own `- item` line |
| App.KeysDistinct | ai_vc_debate/app.py:71-74 | the four cache keys are pairwise distinct, so the four writes do not overwrite one another |
| App.ViewTagsDistinguishViews | ai_vc_debate/app.py:87-100 | the tags "none", "bull" and "bear" name distinct views, so the string tests `current_view == "bull"` and `current_view == "bear"` hold exactly for the bull and bear views |
| App.CompletedCacheValid | ai_vc_debate/app.py:70-74 | the four writes of a completed run, each with a validated record, turn any valid cache (empty, or the entries of a previous completed run) into a valid cache holding all four keys and the verdict of the cached decision |
| App.Analyzer.constructor | ai_vc_debate/app.py:11 | the cache starts empty and valid |
| App.Analyzer.AnalyzeStartup | ai_vc_debate/app.py:18-77 | a blank name gives the prompt and the "none" view and leaves the cache untouched; a failing producer output stops the run with its error and the cache untouched; a completed run yields `✅ Analysis Complete!`, the verdict of the decision and the "none" view, and overwrites all four cache entries |
| App.Analyzer.ToggleBullCase | ai_vc_debate/app.py:80-90 | with no cached bull case, `("", "Run an analysis first!", none)` from any view; otherwise the cached verdict, and the bull case hidden from the "bull" view, shown (view "bull") from any other |
| App.Analyzer.ToggleBearCase | ai_vc_debate/app.py:93-103 | with no cached bear case, `("", "Run an analysis first!", none)` from any view; otherwise the cached verdict, and the bear case hidden from the "bear" view, shown (view "bear") from any other |
| App.Analyzer.ToggleTwiceHides | ai_vc_debate/app.py:87-103 | pressing the same button twice from any view other than its own, "none" included, returns to "none" |
| App.Analyzer.ToggleOtherShows | ai_vc_debate/app.py:87-103 | after an analysis, bull then bear ends at view "bear", and bear then bull ends at "bull" |
| App.Analyzer.TogglesShowCachedVerdict | ai_vc_debate/app.py:80-103 | both buttons return the same first panel, the cached verdict, or "" before any analysis |

## Left out

- `run_vc_debate` and the first half of `analyze_startup` (ai_vc_debate/orchestrator.py:8-46, ai_vc_debate/app.py:22-67) are not part of this model.
  - These are asynchronous agent runs joined with `asyncio.gather`, and their results come from a language model. Their outputs are parameters of `AnalyzeStartup`.
  - Completion order is not modelled: when both case outputs are invalid, the bull error is reported.
- Calls on the cache are modelled as sequential: each toggle runs before or after a whole analysis, never between the four writes at ai_vc_debate/app.py:71-74. The `analysis_results` dict is a module-level global shared by every session, and the interface may run handlers on worker threads. `Valid()` therefore rules out a state the program can expose, one in which `bull_case` is new while `verdict` is old or absent.
- `App.Analyzer.AnalyzeStartup`: only validation failures of the producers' outputs are modelled. An agent run that raises instead (a turn limit exceeded, an API or network error, ai_vc_debate/app.py:29-40, 66) has no `AnalysisFailure` counterpart. In the source such an exception also ends the run before any cache write, so the cache is left untouched either way.
- The intermediate yields and `progress(...)` calls of a non-blank run (ai_vc_debate/app.py:22-26, 44-53) are not modelled. Each of those yields shows a status message, clears both panels and sets the view to "none". So once a non-blank run has started, the interface shows no case and the view is "none", even when the run then fails while the cache still holds the previous run. `AnalyzeStartup` returns the final update of a blank or completed run, and for a failed run only the error; the view after a failed run is not modelled.
- `create_app` and the Gradio wiring (ai_vc_debate/app.py:106-158) are user-interface construction.
- The view tag is a three-valued datatype rather than an arbitrary string. A string other than "bull" behaves like "none" in `toggle_bull_case`, and `App.View` covers the only three tags the interface stores.
- Validation errors are tagged values, and each field is named by a `Models.Field` constructor (`Models.FieldName` gives its declared name). The exact pydantic and `ValueError` message text is not modelled.
- Type errors, missing required fields and pydantic's coercion of input types are not modelled. The records are built from already-typed fields.
- A BullCase or BearCase takes no extra guard beyond its field constraints. Each `Validate*` returns the candidate record as given.
- Agent definitions, the search tool's HTTP call, the GhostPress crew, the e-mail tool, the command-line entry point and the package re-exports are not part of this model. They are prompts, network I/O and framework glue.
- Unicode handling beyond `str.isspace` is not modelled. Strings are sequences of characters, with no encoding or normalisation.
