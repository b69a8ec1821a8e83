/** The state `LiteratureDiscoveryAgentV2` builds up while discovering
    variables for a hypothesis, and what each step of `discover_variables`
    does to it, as functions of the state and of the replies of the outside
    services (the LLM, the NCBI E-utilities, the NER pipelines). */
module DiscoverySpec {
  import opened Common
  import opened Papers
  import Entities
  import Standardization

  // ---------------------------------------------------------------------
  // The outside world

  /** What `_get_summaries_http` reports for one PMID. */
  datatype PaperSummary = PaperSummary(doi: string, title: string, authors: seq<string>, journal: string, year: string)

  /** What `_get_abstract_xml` reports for one PMID. */
  datatype AbstractData = AbstractData(sections: Sections, keywords: seq<string>, publicationTypes: seq<string>)

  /** The replies of the services the agent calls, as functions of what it
      sends them. Every LLM reply is a function of the prompt's variable
      parts. */
  datatype Services = Services(
    strategyReply: string -> string,                            // hypothesis
    expandReply: (string, string, seq<string>) -> string,       // hypothesis, query, variable names
    analysisReply: (string, string, string, string) -> string,  // hypothesis, pmid, title, abstract
    synthesisReply: (string, nat, nat, nat) -> string,          // hypothesis, papers, variables, confounders
    parseXml: string -> Option<Element>,
    parseFloat: string -> Option<real>,
    searchPmids: (string, int) -> seq<string>,                  // query, retmax
    summariesOf: seq<string> -> map<string, PaperSummary>,
    abstractOf: string -> AbstractData,
    pmcOf: string -> Option<string>,
    fullTextOf: string -> Sections,
    nerLoads: bool,
    chemicalNer: Entities.Ner,
    diseaseNer: Entities.Ner)

  /** The NER pipelines: not yet loaded (`None`), loaded, or set to `False`
      after a failed load. */
  datatype NerState = Unloaded | Loaded | Failed

  /** The fields of the agent that `discover_variables` reads and writes. */
  datatype AgentState = AgentState(
    hypothesis: string,
    papers: seq<Paper>,
    variables: seq<Variable>,
    confounders: seq<Variable>,
    recognized: Entities.Recognized,
    ner: NerState)

  /** A freshly constructed agent. */
  function InitialState(): AgentState {
    AgentState("", [], [], [], Entities.Recognized([], []), Unloaded)
  }

  // ---------------------------------------------------------------------
  // Search strategy

  datatype Strategy = Strategy(query: string, keyConcepts: seq<string>, expectedVariableTypes: seq<string>, reasoning: string)

  /** `_analyze_hypothesis`: the strategy read from the `<strategy>` reply. */
  function AnalyzeHypothesis(hypothesis: string, svc: Services): Strategy {
    var e := ExtractXml(svc.strategyReply(hypothesis), "strategy", svc.parseXml);
    Strategy(FindText(e, "query", ""), NestedTexts(e, "key_concepts", "concept"),
             NestedTexts(e, "expected_variable_types", "type"), FindText(e, "reasoning", ""))
  }

  /** A reply that does not parse gives the empty query and no concepts. */
  lemma {:induction false} StrategyFallback(hypothesis: string, svc: Services)
    requires svc.parseXml(XmlPayload(svc.strategyReply(hypothesis), "strategy")).None?
    ensures AnalyzeHypothesis(hypothesis, svc) == Strategy("", [], [], "")
  {
    EmptyElementDefaults("strategy", "query", "");
    EmptyElementDefaults("strategy", "reasoning", "");
  }

  datatype ExpandedStrategy = ExpandedStrategy(query: string, reasoning: string, expectedAdditions: seq<string>)

  /** `_expand_search_strategy`: the LLM sees the hypothesis, the current
      query and the names of the variables found so far. */
  function ExpandSearchStrategy(s: AgentState, currentQuery: string, svc: Services): ExpandedStrategy {
    var reply := svc.expandReply(s.hypothesis, currentQuery, Standardization.Names(s.variables));
    var e := ExtractXml(reply, "expanded_strategy", svc.parseXml);
    ExpandedStrategy(FindText(e, "query", currentQuery), FindText(e, "reasoning", ""),
                     NestedTexts(e, "expected_additions", "addition"))
  }

  /** A reply that does not parse keeps the current query. */
  lemma {:induction false} ExpandFallback(s: AgentState, currentQuery: string, svc: Services)
    requires svc.parseXml(XmlPayload(svc.expandReply(s.hypothesis, currentQuery, Standardization.Names(s.variables)),
                                     "expanded_strategy")).None?
    ensures ExpandSearchStrategy(s, currentQuery, svc) == ExpandedStrategy(currentQuery, "", [])
  {
    EmptyElementDefaults("expanded_strategy", "query", currentQuery);
    EmptyElementDefaults("expanded_strategy", "reasoning", "");
  }

  // ---------------------------------------------------------------------
  // Searching PubMed

  predicate Truthy(s: Option<string>) {
    s.Some? && s.value != ""
  }

  /** One paper as `_search_pubmed` assembles it: summary fields default to
      empty when the summaries lack the PMID, and the full text is fetched
      only for a non-empty PMC id. */
  function AssemblePaper(pmid: string, summaries: map<string, PaperSummary>, svc: Services): (p: Paper)
    ensures p.pmid == pmid && p.analysis.None? && p.variablesExtracted.None?
    ensures p.pmcId == svc.pmcOf(pmid)
    ensures !Truthy(p.pmcId) ==> p.fullTextSections == []
    ensures pmid !in summaries ==> p.doi == "" && p.title == "" && p.authors == [] && p.journal == "" && p.year == ""
  {
    var summary := if pmid in summaries then summaries[pmid] else PaperSummary("", "", [], "", "");
    var abs := svc.abstractOf(pmid);
    var pmcId := svc.pmcOf(pmid);
    var fullText := if Truthy(pmcId) then svc.fullTextOf(pmcId.value) else [];
    Paper(pmid, summary.doi, summary.title, summary.authors, summary.journal, summary.year,
          abs.sections, abs.keywords, abs.publicationTypes, pmcId, fullText, None, None)
  }

  function AssembleAll(pmids: seq<string>, summaries: map<string, PaperSummary>, svc: Services): (r: seq<Paper>)
    ensures |r| == |pmids|
    ensures forall k :: 0 <= k < |r| ==> r[k] == AssemblePaper(pmids[k], summaries, svc)
  {
    if pmids == [] then [] else [AssemblePaper(pmids[0], summaries, svc)] + AssembleAll(pmids[1..], summaries, svc)
  }

  /** `_search_pubmed`: the first `maxResults` PMIDs found (Python slicing,
      so a negative bound drops from the end), each assembled, in order. */
  function SearchPubmed(query: string, maxResults: int, svc: Services): (r: seq<Paper>)
    ensures maxResults >= 0 ==> |r| <= maxResults
    ensures |r| <= |svc.searchPmids(query, maxResults)|
    ensures forall k :: 0 <= k < |r| ==> r[k].pmid == svc.searchPmids(query, maxResults)[k] && r[k].analysis.None?
  {
    var pmids := svc.searchPmids(query, maxResults);
    if pmids == [] then []
    else AssembleAll(PySliceTo(pmids, maxResults), svc.summariesOf(pmids), svc)
  }

  // ---------------------------------------------------------------------
  // Analysing papers

  const AbstractPromptChars := 2000

  /** The paper with the analysis the LLM gave for it and the names of the
      variables it found. */
  function AnalyzedPaper(p: Paper, hypothesis: string, svc: Services): Paper {
    var reply := svc.analysisReply(hypothesis, p.pmid, p.title, PySliceTo(AbstractText(p.abstractSections), AbstractPromptChars));
    var a := AnalysisFrom(ExtractXml(reply, "analysis", svc.parseXml), p.pmid, svc.parseFloat);
    p.(analysis := Some(a), variablesExtracted := Some(Standardization.Names(a.variables)))
  }

  /** The analysed paper gains an analysis and the names of its variables,
      nothing else about it changes, and each variable cites it. */
  lemma {:induction false} AnalyzedPaperFacts(p: Paper, hypothesis: string, svc: Services)
    ensures var q := AnalyzedPaper(p, hypothesis, svc);
      && q.analysis.Some?
      && q.variablesExtracted == Some(Standardization.Names(q.analysis.value.variables))
      && q.(analysis := None, variablesExtracted := None) == p.(analysis := None, variablesExtracted := None)
      && forall v :: v in q.analysis.value.variables ==> v.citations == ["PMID:" + p.pmid]
  {
    var reply := svc.analysisReply(hypothesis, p.pmid, p.title, PySliceTo(AbstractText(p.abstractSections), AbstractPromptChars));
    AnalysisFromFacts(ExtractXml(reply, "analysis", svc.parseXml), p.pmid, svc.parseFloat);
  }

  /** The papers, each analysed. */
  function AnalyzedPapers(papers: seq<Paper>, hypothesis: string, svc: Services): (r: seq<Paper>)
    ensures |r| == |papers|
  {
    if papers == [] then []
    else AnalyzedPapers(papers[..|papers| - 1], hypothesis, svc) + [AnalyzedPaper(papers[|papers| - 1], hypothesis, svc)]
  }

  /** The `k`-th analysed paper is the analysis of the `k`-th paper. */
  lemma {:induction false} AnalyzedPaperAt(papers: seq<Paper>, k: nat, hypothesis: string, svc: Services)
    requires k < |papers|
    ensures AnalyzedPapers(papers, hypothesis, svc)[k] == AnalyzedPaper(papers[k], hypothesis, svc)
    decreases |papers|
  {
    if k < |papers| - 1 {
      AnalyzedPaperAt(papers[..|papers| - 1], k, hypothesis, svc);
    }
  }

  /** Analysing one more paper appends its analysis. */
  lemma {:induction false} AnalyzedPapersSnoc(papers: seq<Paper>, i: nat, hypothesis: string, svc: Services)
    requires i < |papers|
    ensures AnalyzedPapers(papers[..i + 1], hypothesis, svc)
         == AnalyzedPapers(papers[..i], hypothesis, svc) + [AnalyzedPaper(papers[i], hypothesis, svc)]
  {
    assert papers[..i + 1][..i] == papers[..i];
  }

  /** The variables an analysed paper contributes. */
  function AnalysedVariables(q: Paper): seq<Variable> {
    if q.analysis.Some? then q.analysis.value.variables else []
  }

  /** The variables of analysed papers, paper by paper. */
  function FoundVariables(qs: seq<Paper>): seq<Variable> {
    if qs == [] then [] else FoundVariables(qs[..|qs| - 1]) + AnalysedVariables(qs[|qs| - 1])
  }

  /** Recording analysed papers: they are appended to the papers and the
      variables they found are filed by role, confounders apart. */
  function AddAnalysed(s: AgentState, qs: seq<Paper>): AgentState {
    var found := FoundVariables(qs);
    s.(papers := s.papers + qs,
       variables := s.variables + Standardization.WithRole(found),
       confounders := s.confounders + Standardization.ConfoundersOf(found))
  }

  /** One more paper adds its variables after the others'. */
  lemma {:induction false} FoundVariablesSnoc(qs: seq<Paper>, q: Paper)
    ensures FoundVariables(qs + [q]) == FoundVariables(qs) + AnalysedVariables(q)
  {
    assert (qs + [q])[..|qs|] == qs;
  }

  /** Recording one more paper records its variables after the others'. */
  lemma {:induction false} AddAnalysedSnoc(s: AgentState, qs: seq<Paper>, q: Paper)
    ensures var r := AddAnalysed(s, qs);
      AddAnalysed(s, qs + [q]) == r.(papers := r.papers + [q],
                                     variables := r.variables + Standardization.WithRole(AnalysedVariables(q)),
                                     confounders := r.confounders + Standardization.ConfoundersOf(AnalysedVariables(q)))
  {
    AssocAppend(s.papers, qs, [q]);
    VariablesSnoc(s, qs, q);
    ConfoundersSnoc(s, qs, q);
  }

  /** One more paper's non-confounders join the end of the variables. */
  lemma VariablesSnoc(s: AgentState, qs: seq<Paper>, q: Paper)
    ensures AddAnalysed(s, qs + [q]).variables
         == AddAnalysed(s, qs).variables + Standardization.WithRole(AnalysedVariables(q))
  {
    FoundVariablesSnoc(qs, q);
    var a, b := Standardization.WithRole(FoundVariables(qs)), Standardization.WithRole(AnalysedVariables(q));
    Standardization.WithRoleAppend(FoundVariables(qs), AnalysedVariables(q));
    AssocAppend(s.variables, a, b);
  }

  /** One more paper's confounders join the end of the confounders. */
  lemma ConfoundersSnoc(s: AgentState, qs: seq<Paper>, q: Paper)
    ensures AddAnalysed(s, qs + [q]).confounders
         == AddAnalysed(s, qs).confounders + Standardization.ConfoundersOf(AnalysedVariables(q))
  {
    FoundVariablesSnoc(qs, q);
    var a, b := Standardization.ConfoundersOf(FoundVariables(qs)), Standardization.ConfoundersOf(AnalysedVariables(q));
    Standardization.ConfoundersAppend(FoundVariables(qs), AnalysedVariables(q));
    AssocAppend(s.confounders, a, b);
  }

  /** `_analyze_papers`. The analysis of a paper reads only the hypothesis,
      which the loop does not change, so this is analysing every paper and
      then recording them all; `DiscoveryAgent.AnalyzeEach` is the loop as
      written, one paper at a time. */
  function AnalyzeAll(s: AgentState, papers: seq<Paper>, svc: Services): AgentState {
    AddAnalysed(s, AnalyzedPapers(papers, s.hypothesis, svc))
  }

  /** After `_analyze_papers` the old papers are followed by the new ones
      in search order, each with its PMID and an analysis. */
  lemma {:induction false} AnalyzeAllPapers(s: AgentState, papers: seq<Paper>, svc: Services)
    ensures var r := AnalyzeAll(s, papers, svc).papers;
      && |r| == |s.papers| + |papers|
      && r[..|s.papers|] == s.papers
      && forall k :: 0 <= k < |papers| ==> r[|s.papers| + k].pmid == papers[k].pmid && r[|s.papers| + k].analysis.Some?
  {
    var qs := AnalyzedPapers(papers, s.hypothesis, svc);
    forall k | 0 <= k < |papers|
      ensures qs[k].pmid == papers[k].pmid && qs[k].analysis.Some?
    {
      AnalyzedPaperAt(papers, k, s.hypothesis, svc);
      AnalyzedPaperFacts(papers[k], s.hypothesis, svc);
    }
  }

  /** Every variable the analyses found cites one of the analysed papers. */
  lemma {:induction false} FoundVariablesCite(papers: seq<Paper>, hypothesis: string, svc: Services)
    ensures forall v :: v in FoundVariables(AnalyzedPapers(papers, hypothesis, svc)) ==>
      exists k :: 0 <= k < |papers| && v.citations == ["PMID:" + papers[k].pmid]
    decreases |papers|
  {
    if papers != [] {
      var init := papers[..|papers| - 1];
      var q := AnalyzedPaper(papers[|papers| - 1], hypothesis, svc);
      var qsInit := AnalyzedPapers(init, hypothesis, svc);
      assert AnalyzedPapers(papers, hypothesis, svc) == qsInit + [q];
      FoundVariablesSnoc(qsInit, q);
      FoundVariablesCite(init, hypothesis, svc);
      AnalyzedPaperFacts(papers[|papers| - 1], hypothesis, svc);
      CitesSnoc(FoundVariables(qsInit), AnalysedVariables(q), init, papers);
    }
  }

  /** Variables citing the papers before the last, followed by variables
      citing the last, all cite one of the papers. */
  lemma CitesSnoc(found: seq<Variable>, more: seq<Variable>, init: seq<Paper>, papers: seq<Paper>)
    requires papers != [] && init == papers[..|papers| - 1]
    requires forall v :: v in found ==> exists k :: 0 <= k < |init| && v.citations == ["PMID:" + init[k].pmid]
    requires forall v :: v in more ==> v.citations == ["PMID:" + papers[|papers| - 1].pmid]
    ensures forall v :: v in found + more ==> exists k :: 0 <= k < |papers| && v.citations == ["PMID:" + papers[k].pmid]
  {
    forall v | v in found + more
      ensures exists k :: 0 <= k < |papers| && v.citations == ["PMID:" + papers[k].pmid]
    {
      if v in found {
        var k :| 0 <= k < |init| && v.citations == ["PMID:" + init[k].pmid];
        assert init[k] == papers[k];
      }
    }
  }

  /** After `_analyze_papers`, each new variable or confounder cites one of
      the analysed papers. */
  lemma {:induction false} AnalyzeAllCites(s: AgentState, papers: seq<Paper>, svc: Services)
    ensures var r := AnalyzeAll(s, papers, svc);
      forall v :: (v in r.variables && v !in s.variables) || (v in r.confounders && v !in s.confounders) ==>
        exists k :: 0 <= k < |papers| && v.citations == ["PMID:" + papers[k].pmid]
  {
    var found := FoundVariables(AnalyzedPapers(papers, s.hypothesis, svc));
    FoundVariablesCite(papers, s.hypothesis, svc);
    Standardization.SplitMembers(found);
  }

  // ---------------------------------------------------------------------
  // Entities, standardisation, filtering

  /** `_load_biobert_ner`: loads only when not loaded; a failed load is
      never retried. */
  function LoadNer(ner: NerState, loads: bool): (r: NerState)
    ensures r != Unloaded
  {
    if ner != Unloaded then ner else if loads then Loaded else Failed
  }

  /** Loading again changes nothing, whether or not it would now succeed. */
  lemma NerLoadedOnce(ner: NerState, loads: bool, loadsLater: bool)
    ensures LoadNer(LoadNer(ner, loads), loadsLater) == LoadNer(ner, loads)
  {
  }

  /** `_extract_medical_entities`. */
  function WithEntities(s: AgentState, svc: Services): AgentState {
    var ner := LoadNer(s.ner, svc.nerLoads);
    s.(ner := ner,
       recognized := if ner == Failed then Entities.Recognized([], [])
                     else Entities.RecognizedIn(Entities.PaperTexts(s.papers), svc.chemicalNer, svc.diseaseNer))
  }

  /** Every recognised entity is a plausible name and is kept once. */
  lemma {:induction false} RecognizedEntitiesValid(s: AgentState, svc: Services)
    ensures var r := WithEntities(s, svc).recognized;
      && (forall e :: e in r.chemicals || e in r.diseases ==> Entities.IsValidEntity(e))
      && NoRepeats(r.chemicals) && NoRepeats(r.diseases)
  {
    Entities.RecognizedValid(Entities.PaperTexts(s.papers), svc.chemicalNer, svc.diseaseNer);
    Entities.RecognizedOnce(Entities.PaperTexts(s.papers), svc.chemicalNer, svc.diseaseNer);
  }

  /** The entities offered as canonical names: chemicals, then diseases. */
  function EntityNames(s: AgentState): seq<string> {
    s.recognized.chemicals + s.recognized.diseases
  }

  /** `_standardize_variable_names`. */
  function Standardized(s: AgentState): AgentState {
    var d := Standardization.Dedup(s.variables + s.confounders, EntityNames(s));
    s.(variables := Standardization.WithRole(d), confounders := Standardization.ConfoundersOf(d))
  }

  /** `_filter_non_variables` as written: the abbreviations are matched as
      substrings of the lower-cased name. */
  function Filtered(s: AgentState): AgentState {
    var f := Standardization.FilterNonVariablesAsWritten(s.variables, s.confounders);
    s.(variables := f.0, confounders := f.1)
  }

  /** What holds after every round: variables are not confounders,
      confounders are, no entry is a study statistic, and no name occurs
      twice across both lists. */
  predicate Clean(s: AgentState) {
    && (forall v :: v in s.variables ==>
          v.role != Standardization.Confounder && !Standardization.IsStudyStatistic(v))
    && (forall v :: v in s.confounders ==>
          v.role == Standardization.Confounder && !Standardization.IsStudyStatistic(v))
    && NoRepeats(Standardization.Names(s.variables + s.confounders))
  }

  /** Standardising then filtering leaves a clean state. */
  lemma {:induction false} StandardizedFilteredClean(s: AgentState)
    ensures Clean(Filtered(Standardized(s)))
  {
    var d := Standardization.Dedup(s.variables + s.confounders, EntityNames(s));
    Standardization.DedupNamesDistinct(s.variables + s.confounders, EntityNames(s));
    var a := Standardization.WithRole(d);
    var b := Standardization.ConfoundersOf(d);
    Standardization.WithRoleDistinct(d);
    Standardization.ConfoundersDistinct(d);
    Standardization.SplitDisjoint(d);
    Standardization.SplitMembers(d);
    Standardization.DropStatisticsDistinct(a, Standardization.IsStudyStatistic);
    Standardization.DropStatisticsDistinct(b, Standardization.IsStudyStatistic);
    var f := Standardization.FilterNonVariablesAsWritten(a, b);
    Standardization.ConcatDistinct(f.0, f.1);
  }

  // ---------------------------------------------------------------------
  // The iterations of `discover_variables`

  /** One iteration: search, analyse, recognise, standardise, filter. */
  function Round(s: AgentState, query: string, maxResults: int, svc: Services): AgentState {
    var papers := SearchPubmed(query, maxResults, svc);
    Filtered(Standardized(WithEntities(AnalyzeAll(s, papers, svc), svc)))
  }

  /** A round adds the analysed search results to the papers and at most
      `maxResults` of them. */
  lemma RoundPapers(s: AgentState, query: string, maxResults: int, svc: Services)
    ensures var r := Round(s, query, maxResults, svc);
      && r.papers == s.papers + AnalyzedPapers(SearchPubmed(query, maxResults, svc), s.hypothesis, svc)
      && r.hypothesis == s.hypothesis
      && (maxResults >= 0 ==> Appended(s, r, maxResults))
  {
  }

  /** The iterations from `iteration` on, starting from `s` with `query`,
      for a given round and query expansion: the final state and the final
      iteration count. A round that reaches `minVariables` variables stops
      the search; otherwise the query is expanded when another round will
      follow. */
  function Iterate(s: AgentState, query: string, iteration: nat, minVariables: int, maxIterations: int,
                   round: (AgentState, string) -> AgentState, expand: (AgentState, string) -> string): (AgentState, nat)
    decreases maxIterations - iteration
  {
    if iteration >= maxIterations then (s, iteration)
    else
      var s' := round(s, query);
      if |s'.variables| >= minVariables then (s', iteration + 1)
      else if iteration + 1 < maxIterations then
        Iterate(s', expand(s', query), iteration + 1, minVariables, maxIterations, round, expand)
      else (s', iteration + 1)
  }

  /** The count only grows, and never past the larger of where it started
      and `maxIterations`. */
  lemma {:induction false} IterateCount(s: AgentState, query: string, iteration: nat, minVariables: int, maxIterations: int,
                                        round: (AgentState, string) -> AgentState, expand: (AgentState, string) -> string)
    ensures var r := Iterate(s, query, iteration, minVariables, maxIterations, round, expand);
      iteration <= r.1 && (r.1 <= iteration || r.1 <= maxIterations)
      && (iteration < maxIterations ==> iteration < r.1)
    decreases maxIterations - iteration
  {
    if iteration < maxIterations {
      var s' := round(s, query);
      if |s'.variables| < minVariables && iteration + 1 < maxIterations {
        IterateCount(s', expand(s', query), iteration + 1, minVariables, maxIterations, round, expand);
      }
    }
  }

  /** The search stops before `maxIterations` only with at least
      `minVariables` variables. */
  lemma {:induction false} IterateStopsEarly(s: AgentState, query: string, iteration: nat, minVariables: int, maxIterations: int,
                                             round: (AgentState, string) -> AgentState, expand: (AgentState, string) -> string)
    ensures var r := Iterate(s, query, iteration, minVariables, maxIterations, round, expand);
      r.1 < maxIterations ==> |r.0.variables| >= minVariables
    decreases maxIterations - iteration
  {
    if iteration < maxIterations {
      var s' := round(s, query);
      if |s'.variables| < minVariables && iteration + 1 < maxIterations {
        IterateStopsEarly(s', expand(s', query), iteration + 1, minVariables, maxIterations, round, expand);
      }
    }
  }

  /** When every round leaves a clean state, so does any run of at least one
      round. */
  lemma {:induction false} IterateClean(s: AgentState, query: string, iteration: nat, minVariables: int, maxIterations: int,
                                        round: (AgentState, string) -> AgentState, expand: (AgentState, string) -> string)
    requires forall st, q :: Clean(round(st, q))
    ensures var r := Iterate(s, query, iteration, minVariables, maxIterations, round, expand);
      r.1 > iteration ==> Clean(r.0)
    decreases maxIterations - iteration
  {
    if iteration < maxIterations {
      var s' := round(s, query);
      if |s'.variables| < minVariables && iteration + 1 < maxIterations {
        IterateClean(s', expand(s', query), iteration + 1, minVariables, maxIterations, round, expand);
        IterateCount(s', expand(s', query), iteration + 1, minVariables, maxIterations, round, expand);
      }
    }
  }

  /** When every round appends at most `perRound` papers and keeps the
      hypothesis, a run of rounds appends at most that many per round. */
  lemma {:induction false} IteratePapers(s: AgentState, query: string, iteration: nat, minVariables: int, maxIterations: int,
                                         round: (AgentState, string) -> AgentState, expand: (AgentState, string) -> string,
                                         perRound: nat)
    requires forall st, q :: Appended(st, round(st, q), perRound)
    ensures var r := Iterate(s, query, iteration, minVariables, maxIterations, round, expand);
      Appended(s, r.0, (r.1 - iteration) * perRound)
    decreases maxIterations - iteration
  {
    if iteration < maxIterations {
      var s' := round(s, query);
      assert Appended(s, s', perRound);
      if |s'.variables| < minVariables && iteration + 1 < maxIterations {
        var r := Iterate(s', expand(s', query), iteration + 1, minVariables, maxIterations, round, expand);
        IteratePapers(s', expand(s', query), iteration + 1, minVariables, maxIterations, round, expand, perRound);
        IterateCount(s', expand(s', query), iteration + 1, minVariables, maxIterations, round, expand);
        AppendedTrans(s, s', r.0, perRound, (r.1 - (iteration + 1)) * perRound);
        assert (r.1 - iteration) * perRound == perRound + (r.1 - (iteration + 1)) * perRound;
      }
    }
  }

  /** Appending twice appends at most the sum. */
  lemma AppendedTrans(s: AgentState, s': AgentState, t: AgentState, n: int, m: int)
    requires Appended(s, s', n) && Appended(s', t, m)
    ensures Appended(s, t, n + m)
  {
    assert t.papers[..|s.papers|] == t.papers[..|s'.papers|][..|s.papers|];
  }

  /** `t` keeps the hypothesis and the papers of `s`, and has at most `n`
      papers more. */
  predicate Appended(s: AgentState, t: AgentState, n: int) {
    && t.hypothesis == s.hypothesis
    && |s.papers| <= |t.papers| <= |s.papers| + n
    && t.papers[..|s.papers|] == s.papers
  }

  /** Where the iterations end, seen from a point of the loop: there, once
      the search has stopped, and otherwise after the remaining rounds. */
  function Remaining(done: bool, s: AgentState, query: string, iteration: nat, minVariables: int, maxPapers: int,
                     maxIterations: int, svc: Services): (AgentState, nat)
  {
    if done then (s, iteration) else Rounds(s, query, iteration, minVariables, maxPapers, maxIterations, svc)
  }

  /** A round that finds enough variables ends the iterations. */
  lemma RoundsStop(s: AgentState, query: string, iteration: nat, minVariables: int, maxPapers: int,
                   maxIterations: int, svc: Services, next: AgentState)
    requires iteration < maxIterations && next == Round(s, query, maxPapers / maxIterations, svc)
    requires |next.variables| >= minVariables
    ensures Rounds(s, query, iteration, minVariables, maxPapers, maxIterations, svc) == (next, iteration + 1)
  {
  }

  /** A round short of variables, with iterations left, goes on with the
      expanded query. */
  lemma RoundsContinue(s: AgentState, query: string, iteration: nat, minVariables: int, maxPapers: int,
                       maxIterations: int, svc: Services, next: AgentState)
    requires iteration + 1 < maxIterations && next == Round(s, query, maxPapers / maxIterations, svc)
    requires |next.variables| < minVariables
    ensures Rounds(s, query, iteration, minVariables, maxPapers, maxIterations, svc)
      == Rounds(next, ExpandSearchStrategy(next, query, svc).query, iteration + 1, minVariables, maxPapers, maxIterations, svc)
  {
  }

  /** The last allowed round ends the iterations whatever it found. */
  lemma RoundsLast(s: AgentState, query: string, iteration: nat, minVariables: int, maxPapers: int,
                   maxIterations: int, svc: Services, next: AgentState)
    requires iteration + 1 == maxIterations && next == Round(s, query, maxPapers / maxIterations, svc)
    ensures Rounds(s, query, iteration, minVariables, maxPapers, maxIterations, svc) == (next, iteration + 1)
  {
  }

  /** Every round of the agent leaves a clean state. */
  lemma {:induction false} RoundClean(s: AgentState, query: string, maxResults: int, svc: Services)
    ensures Clean(Round(s, query, maxResults, svc))
  {
    StandardizedFilteredClean(WithEntities(AnalyzeAll(s, SearchPubmed(query, maxResults, svc), svc), svc));
  }

  /** The papers searched for in each round. */
  function PerRound(maxPapers: int, maxIterations: int): (r: int)
    ensures maxPapers >= 0 ==> r >= 0
    ensures maxIterations > 0 ==> r * maxIterations <= maxPapers < (r + 1) * maxIterations
  {
    if maxIterations > 0 then maxPapers / maxIterations else 0
  }

  /** The iterations of `discover_variables` from `iteration` on. Each round
      searches for `max_papers // max_iterations` papers; the division only
      happens inside the loop, where `maxIterations` is positive, and there
      Dafny's `/` is Python's floor division. */
  function Rounds(s: AgentState, query: string, iteration: nat, minVariables: int, maxPapers: int,
                  maxIterations: int, svc: Services): (AgentState, nat)
  {
    var perRound := PerRound(maxPapers, maxIterations);
    Iterate(s, query, iteration, minVariables, maxIterations,
            (st, q) => Round(st, q, perRound, svc),
            (st, q) => ExpandSearchStrategy(st, q, svc).query)
  }

  // ---------------------------------------------------------------------
  // The whole discovery

  datatype Synthesis = Synthesis(reasoningChain: string, keyRelationships: seq<string>,
                                 novelInsights: seq<string>, confidence: string)

  /** `_synthesize_findings`: the LLM sees the hypothesis and the three
      counts. */
  function SynthesizeFindings(s: AgentState, svc: Services): Synthesis {
    var reply := svc.synthesisReply(s.hypothesis, |s.papers|, |s.variables|, |s.confounders|);
    var e := ExtractXml(reply, "synthesis", svc.parseXml);
    Synthesis(FindText(e, "reasoning_chain", ""), NestedTexts(e, "key_relationships", "relationship"),
              NestedTexts(e, "novel_insights", "insight"), FindText(e, "confidence", "medium"))
  }

  /** A reply that does not parse gives an empty synthesis of medium
      confidence. */
  lemma {:induction false} SynthesisFallback(s: AgentState, svc: Services)
    requires svc.parseXml(XmlPayload(svc.synthesisReply(s.hypothesis, |s.papers|, |s.variables|, |s.confounders|),
                                     "synthesis")).None?
    ensures SynthesizeFindings(s, svc) == Synthesis("", [], [], "medium")
  {
    EmptyElementDefaults("synthesis", "reasoning_chain", "");
    EmptyElementDefaults("synthesis", "confidence", "medium");
  }

  /** `discover_variables` up to the synthesis: the state after the
      iterations and the iteration count. */
  function Discover(s: AgentState, hypothesis: string, minVariables: int, maxPapers: int, maxIterations: int,
                    svc: Services): (AgentState, nat)
  {
    var s0 := s.(hypothesis := hypothesis);
    Rounds(s0, AnalyzeHypothesis(hypothesis, svc).query, 0, minVariables, maxPapers, maxIterations, svc)
  }

  /** At most `maxIterations` iterations run (none when it is not
      positive), and fewer only when enough variables were found. */
  lemma {:induction false} DiscoverCount(s: AgentState, hypothesis: string, minVariables: int, maxPapers: int, maxIterations: int,
                      svc: Services)
    ensures var r := Discover(s, hypothesis, minVariables, maxPapers, maxIterations, svc);
      && (maxIterations <= 0 ==> r.1 == 0 && r.0 == s.(hypothesis := hypothesis))
      && (maxIterations > 0 ==> 1 <= r.1 <= maxIterations)
      && (r.1 < maxIterations ==> |r.0.variables| >= minVariables)
  {
    var perRound := PerRound(maxPapers, maxIterations);
    var round := (st, q) => Round(st, q, perRound, svc);
    var expand := (st, q) => ExpandSearchStrategy(st, q, svc).query;
    var query := AnalyzeHypothesis(hypothesis, svc).query;
    IterateCount(s.(hypothesis := hypothesis), query, 0, minVariables, maxIterations, round, expand);
    IterateStopsEarly(s.(hypothesis := hypothesis), query, 0, minVariables, maxIterations, round, expand);
  }

  /** Once an iteration ran, the variables and confounders are clean. */
  lemma {:induction false} DiscoverClean(s: AgentState, hypothesis: string, minVariables: int, maxPapers: int, maxIterations: int,
                      svc: Services)
    requires maxIterations > 0
    ensures Clean(Discover(s, hypothesis, minVariables, maxPapers, maxIterations, svc).0)
  {
    var perRound := PerRound(maxPapers, maxIterations);
    var round := (st, q) => Round(st, q, perRound, svc);
    var expand := (st, q) => ExpandSearchStrategy(st, q, svc).query;
    var query := AnalyzeHypothesis(hypothesis, svc).query;
    forall st, q
      ensures Clean(round(st, q))
    {
      RoundClean(st, q, perRound, svc);
    }
    IterateClean(s.(hypothesis := hypothesis), query, 0, minVariables, maxIterations, round, expand);
    IterateCount(s.(hypothesis := hypothesis), query, 0, minVariables, maxIterations, round, expand);
  }

  /** The hypothesis is set, the old papers are kept, and at most
      `maxPapers` papers are added. */
  lemma {:induction false} DiscoverPapers(s: AgentState, hypothesis: string, minVariables: int, maxPapers: int, maxIterations: int,
                       svc: Services)
    requires maxPapers >= 0
    ensures Appended(s.(hypothesis := hypothesis), Discover(s, hypothesis, minVariables, maxPapers, maxIterations, svc).0, maxPapers)
  {
    var s0 := s.(hypothesis := hypothesis);
    var perRound := PerRound(maxPapers, maxIterations);
    var round := (st, q) => Round(st, q, perRound, svc);
    var expand := (st, q) => ExpandSearchStrategy(st, q, svc).query;
    var query := AnalyzeHypothesis(hypothesis, svc).query;
    EveryRoundAppends(perRound, svc, round);
    IterateWithinBudget(s0, query, minVariables, maxIterations, round, expand, maxPapers);
  }

  /** A run of rounds that each add at most `maxPapers // maxIterations`
      papers adds at most `maxPapers`. */
  lemma {:induction false} IterateWithinBudget(s0: AgentState, query: string, minVariables: int, maxIterations: int,
                            round: (AgentState, string) -> AgentState, expand: (AgentState, string) -> string,
                            maxPapers: int)
    requires maxPapers >= 0
    requires forall st, q :: Appended(st, round(st, q), PerRound(maxPapers, maxIterations))
    ensures Appended(s0, Iterate(s0, query, 0, minVariables, maxIterations, round, expand).0, maxPapers)
  {
    var perRound := PerRound(maxPapers, maxIterations);
    var r := Iterate(s0, query, 0, minVariables, maxIterations, round, expand);
    IteratePapers(s0, query, 0, minVariables, maxIterations, round, expand, perRound);
    IterateCount(s0, query, 0, minVariables, maxIterations, round, expand);
    RoundsWithinBudget(r.1, maxIterations, perRound, maxPapers);
  }

  /** Every round of the agent keeps the hypothesis and adds at most
      `perRound` papers. */
  lemma {:induction false} EveryRoundAppends(perRound: nat, svc: Services, round: (AgentState, string) -> AgentState)
    requires forall st, q :: round(st, q) == Round(st, q, perRound, svc)
    ensures forall st, q :: Appended(st, round(st, q), perRound)
  {
    forall st, q
      ensures Appended(st, round(st, q), perRound)
    {
      RoundPapers(st, q, perRound, svc);
    }
  }

  /** `k` rounds of `maxPapers // maxIterations` papers stay within
      `maxPapers` when `k` is at most `maxIterations`, or is 0. */
  lemma {:induction false} RoundsWithinBudget(k: nat, maxIterations: int, perRound: int, maxPapers: int)
    requires maxPapers >= 0 && perRound == PerRound(maxPapers, maxIterations)
    requires k == 0 || k <= maxIterations
    ensures k * perRound <= maxPapers
  {
    if k > 0 {
      MulMonotone(k, maxIterations, perRound);
    }
  }

  /** Rounds that keep the hypothesis keep it over any run. */
  lemma {:induction false} IterateKeepsHypothesis(s: AgentState, query: string, iteration: nat, minVariables: int,
                                                  maxIterations: int, round: (AgentState, string) -> AgentState,
                                                  expand: (AgentState, string) -> string)
    requires forall st, q :: round(st, q).hypothesis == st.hypothesis
    ensures Iterate(s, query, iteration, minVariables, maxIterations, round, expand).0.hypothesis == s.hypothesis
    decreases maxIterations - iteration
  {
    if iteration < maxIterations {
      var s' := round(s, query);
      if |s'.variables| < minVariables && iteration + 1 < maxIterations {
        IterateKeepsHypothesis(s', expand(s', query), iteration + 1, minVariables, maxIterations, round, expand);
      }
    }
  }

  /** The final state carries the hypothesis discovery was asked about. */
  lemma {:induction false} DiscoverHypothesis(s: AgentState, hypothesis: string, minVariables: int, maxPapers: int, maxIterations: int,
                           svc: Services)
    ensures Discover(s, hypothesis, minVariables, maxPapers, maxIterations, svc).0.hypothesis == hypothesis
  {
    var perRound := PerRound(maxPapers, maxIterations);
    var round := (st, q) => Round(st, q, perRound, svc);
    var expand := (st, q) => ExpandSearchStrategy(st, q, svc).query;
    EveryRoundKeeps(perRound, svc, round);
    IterateKeepsHypothesis(s.(hypothesis := hypothesis), AnalyzeHypothesis(hypothesis, svc).query, 0, minVariables,
                           maxIterations, round, expand);
  }

  lemma {:induction false} EveryRoundKeeps(perRound: int, svc: Services, round: (AgentState, string) -> AgentState)
    requires forall st, q :: round(st, q) == Round(st, q, perRound, svc)
    ensures forall st, q :: round(st, q).hypothesis == st.hypothesis
  {
    forall st, q
      ensures round(st, q).hypothesis == st.hypothesis
    {
      RoundPapers(st, q, perRound, svc);
    }
  }

  lemma MulMonotone(a: int, b: int, q: int)
    requires 0 <= a <= b && q >= 0
    ensures a * q <= b * q
  {
  }
}
