/** `LiteratureDiscoveryAgentV2` as an object: its fields are updated in
    place by the steps of `discover_variables`, and each method is proved
    to leave the state the corresponding function of `DiscoverySpec`
    describes. */
module DiscoveryAgent {
  import opened Common
  import opened Papers
  import Entities
  import Standardization
  import opened DiscoverySpec
  import opened DiscoveryOutput

  /** The inner loop of `_analyze_papers`: each variable is appended to the
      confounders or to the variables by its role. */
  method AddVariables(found: seq<Variable>, variables: seq<Variable>, confounders: seq<Variable>)
    returns (vars: seq<Variable>, confs: seq<Variable>)
    ensures vars == variables + Standardization.WithRole(found)
    ensures confs == confounders + Standardization.ConfoundersOf(found)
  {
    vars, confs := variables, confounders;
    var i := 0;
    while i < |found|
      invariant 0 <= i <= |found|
      invariant vars == variables + Standardization.WithRole(found[..i])
      invariant confs == confounders + Standardization.ConfoundersOf(found[..i])
    {
      var v := found[i];
      Standardization.SplitSnoc(found, i);
      if v.role == Standardization.Confounder {
        confs := confs + [v];
      } else {
        vars := vars + [v];
      }
      i := i + 1;
    }
    assert found[..|found|] == found;
  }

  /** The loop of `_analyze_papers`: each paper is analysed by the LLM and
      recorded with its analysis, and its variables are filed by role. */
  method AnalyzeEach(s: AgentState, papers: seq<Paper>, svc: Services) returns (r: AgentState)
    ensures r == AnalyzeAll(s, papers, svc)
  {
    r := s;
    ghost var analysed: seq<Paper> := [];
    var i := 0;
    while i < |papers|
      invariant 0 <= i <= |papers|
      invariant analysed == AnalyzedPapers(papers[..i], s.hypothesis, svc)
      invariant r == AddAnalysed(s, analysed)
    {
      var q := AnalyzedPaper(papers[i], s.hypothesis, svc);
      AnalyzedPapersSnoc(papers, i, s.hypothesis, svc);
      AddAnalysedSnoc(s, analysed, q);
      var vars, confs := AddVariables(AnalysedVariables(q), r.variables, r.confounders);
      r := r.(papers := r.papers + [q], variables := vars, confounders := confs);
      analysed := analysed + [q];
      i := i + 1;
    }
    assert papers[..|papers|] == papers;
  }

  /** The first loop of `_build_synthesis_input`: the summary of the first
      variable of each name, in order. */
  method SummarizeUnique(all: seq<Variable>) returns (unique: seq<VariableSummary>)
    ensures unique == UniqueSummaries(all)
  {
    unique := [];
    var i := 0;
    while i < |all|
      invariant 0 <= i <= |all|
      invariant unique == UniqueSummaries(all[..i])
    {
      assert all[..i + 1][..i] == all[..i];
      var v := all[i];
      if v.name !in SummaryNames(unique) {
        unique := unique + [SummaryOf(v)];
      }
      i := i + 1;
    }
    assert all[..|all|] == all;
  }

  /** The second loop of `_build_synthesis_input`: one correlation per
      recorded relationship, in order. */
  method CorrelationsOf(relationships: seq<Relationship>) returns (correlations: seq<Correlation>)
    ensures correlations == Correlations(relationships)
  {
    correlations := [];
    var j := 0;
    while j < |relationships|
      invariant 0 <= j <= |relationships|
      invariant correlations == Correlations(relationships[..j])
    {
      assert relationships[..j + 1][..j] == relationships[..j];
      var rel := relationships[j];
      correlations := correlations + [Correlation(rel.var1, rel.var2,
                                                  if rel.effectSize.Some? then rel.effectSize.value else 0.0)];
      j := j + 1;
    }
    assert relationships[..|relationships|] == relationships;
  }

  /** The loop of `_build_literature_display` over the analysed papers:
      one display entry per paper, in order. */
  method DisplayPapers(analyzed: seq<Paper>) returns (papers: seq<PaperDisplay>)
    ensures papers == PaperDisplays(analyzed)
  {
    papers := [];
    var i := 0;
    while i < |analyzed|
      invariant 0 <= i <= |analyzed|
      invariant papers == PaperDisplays(analyzed[..i])
    {
      assert analyzed[..i + 1][..i] == analyzed[..i];
      papers := papers + [PaperDisplayOf(analyzed[i])];
      i := i + 1;
    }
    assert analyzed[..|analyzed|] == analyzed;
  }

  class LiteratureDiscoveryAgentV2 {
    /** The LLM, the NCBI E-utilities and the NER pipelines. */
    const svc: Services

    var hypothesis: string
    var papersAnalyzed: seq<Paper>
    var variablesDiscovered: seq<Variable>
    var confounders: seq<Variable>
    /** Never appended to by any step. */
    var relationships: seq<Relationship>
    var recognized: Entities.Recognized
    var ner: NerState

    function State(): AgentState
      reads this
    {
      AgentState(hypothesis, papersAnalyzed, variablesDiscovered, confounders, recognized, ner)
    }

    /** `__init__`: nothing found yet and the NER pipelines not loaded. */
    constructor(svc: Services)
      ensures this.svc == svc
      ensures State() == InitialState() && relationships == []
    {
      this.svc := svc;
      hypothesis := "";
      papersAnalyzed := [];
      variablesDiscovered := [];
      confounders := [];
      relationships := [];
      recognized := Entities.Recognized([], []);
      ner := Unloaded;
    }

    /** `_load_biobert_ner`: loads the pipelines unless loaded or failed. */
    method LoadBiobertNer()
      modifies this
      ensures State() == old(State()).(ner := LoadNer(old(ner), svc.nerLoads))
      ensures relationships == old(relationships)
    {
      if ner == Unloaded {
        if svc.nerLoads {
          ner := Loaded;
        } else {
          ner := Failed;
        }
      }
    }

    /** `_analyze_papers`: the fields take the papers and variables
        `AnalyzeEach` computes. */
    method AnalyzePapers(papers: seq<Paper>)
      modifies this
      ensures State() == AnalyzeAll(old(State()), papers, svc)
      ensures relationships == old(relationships)
    {
      var r := AnalyzeEach(State(), papers, svc);
      SetAnalysed(r.papers, r.variables, r.confounders);
    }

    /** Stores what `_analyze_papers` built. */
    method SetAnalysed(papers: seq<Paper>, variables: seq<Variable>, confounders: seq<Variable>)
      modifies this
      ensures State() == old(State()).(papers := papers, variables := variables, confounders := confounders)
      ensures relationships == old(relationships)
    {
      papersAnalyzed, variablesDiscovered, this.confounders := papers, variables, confounders;
    }

    /** `_extract_medical_entities`. */
    method ExtractMedicalEntities()
      modifies this
      ensures State() == WithEntities(old(State()), svc)
      ensures relationships == old(relationships)
    {
      LoadBiobertNer();
      recognized := Entities.ExtractMedicalEntities(papersAnalyzed, ner != Failed, svc.chemicalNer, svc.diseaseNer);
    }

    /** `_standardize_variable_names`. */
    method StandardizeVariableNames()
      modifies this
      ensures State() == Standardized(old(State()))
      ensures relationships == old(relationships)
    {
      var v, c := Standardization.StandardizeVariableNames(variablesDiscovered, confounders,
                                                           recognized.chemicals + recognized.diseases);
      variablesDiscovered := v;
      confounders := c;
    }

    /** `_filter_non_variables`: the study statistics are dropped from both
        lists, the abbreviations matched as substrings. */
    method FilterNonVariables()
      modifies this
      ensures State() == Filtered(old(State()))
      ensures relationships == old(relationships)
    {
      var f := Standardization.FilterNonVariablesAsWritten(variablesDiscovered, confounders);
      variablesDiscovered := f.0;
      confounders := f.1;
    }

    /** One iteration of `discover_variables`' loop up to its stopping test:
        search, analyse, recognise entities, standardise, filter. */
    method SearchRound(query: string, maxResults: int)
      modifies this
      ensures State() == Round(old(State()), query, maxResults, svc)
      ensures relationships == old(relationships)
    {
      var papers := SearchPubmed(query, maxResults, svc);
      AnalyzePapers(papers);
      ExtractMedicalEntities();
      StandardizeVariableNames();
      FilterNonVariables();
    }

    /** `_build_synthesis_input`: the first variable of each name, then the
        correlations of the recorded relationships. */
    method BuildSynthesisInput(hypothesis: string) returns (r: SynthesisInput)
      ensures r == SynthesisInputOf(variablesDiscovered, confounders, relationships, hypothesis)
    {
      var unique := SummarizeUnique(variablesDiscovered + confounders);
      var correlations := CorrelationsOf(relationships);
      r := SynthesisInput(unique, correlations, hypothesis, SynthesisSource);
    }

    /** `_build_literature_display`: one entry per analysed paper, then the
        counts and the synthesis. */
    method BuildLiteratureDisplay(hypothesis: string, iterations: nat, synthesis: Synthesis)
      returns (r: LiteratureDisplay)
      ensures r == LiteratureDisplayOf(State(), hypothesis, iterations, synthesis)
    {
      var papers := DisplayPapers(papersAnalyzed);
      r := LiteratureDisplay(
        hypothesis, papers, |papersAnalyzed|, |NameSet(variablesDiscovered)|, |NameSet(confounders)|, iterations,
        SynthesisDisplay(synthesis.reasoningChain, synthesis.keyRelationships, synthesis.novelInsights,
                         synthesis.confidence));
    }

    /** The search part of `discover_variables`: a strategy from the
        hypothesis, then rounds until enough variables are found or the
        iterations run out, expanding the query between rounds. Returns the
        iteration count. */
    method SearchIterations(hypothesis: string, minVariables: int, maxPapers: int, maxIterations: int)
      returns (iteration: nat)
      modifies this
      ensures (State(), iteration) == Discover(old(State()), hypothesis, minVariables, maxPapers, maxIterations, svc)
      ensures relationships == old(relationships)
    {
      ghost var target := Discover(old(State()), hypothesis, minVariables, maxPapers, maxIterations, svc);
      this.hypothesis := hypothesis;
      var query := AnalyzeHypothesis(hypothesis, svc).query;
      iteration := 0;
      var done := false;
      while iteration < maxIterations && !done
        invariant relationships == old(relationships)
        invariant Remaining(done, State(), query, iteration, minVariables, maxPapers, maxIterations, svc) == target
        decreases maxIterations - iteration
      {
        done, query := SearchStep(query, iteration, minVariables, maxPapers, maxIterations);
        iteration := iteration + 1;
      }
    }

    /** One pass of `discover_variables`' loop: a round, then the stopping
        test, and the query expansion when another round follows. `done`
        says the iterations ended here. */
    method SearchStep(query: string, iteration: nat, minVariables: int, maxPapers: int, maxIterations: int)
      returns (done: bool, next: string)
      requires iteration < maxIterations
      modifies this
      ensures relationships == old(relationships)
      ensures Remaining(done, State(), next, iteration + 1, minVariables, maxPapers, maxIterations, svc)
              == Rounds(old(State()), query, iteration, minVariables, maxPapers, maxIterations, svc)
    {
      ghost var before := State();
      SearchRound(query, maxPapers / maxIterations);
      next := query;
      if |variablesDiscovered| >= minVariables {
        RoundsStop(before, query, iteration, minVariables, maxPapers, maxIterations, svc, State());
        done := true;
      } else if iteration + 1 < maxIterations {
        RoundsContinue(before, query, iteration, minVariables, maxPapers, maxIterations, svc, State());
        next := ExpandSearchStrategy(State(), query, svc).query;
        done := false;
      } else {
        RoundsLast(before, query, iteration, minVariables, maxPapers, maxIterations, svc, State());
        done := true;
      }
    }

    /** `discover_variables`: the search, then the synthesis and the two
        outputs. */
    method DiscoverVariables(hypothesis: string, minVariables: int, maxPapers: int, maxIterations: int)
      returns (input: SynthesisInput, display: LiteratureDisplay)
      modifies this
      ensures State() == Discover(old(State()), hypothesis, minVariables, maxPapers, maxIterations, svc).0
      ensures relationships == old(relationships)
      ensures (input, display)
        == DiscoveryResult(old(State()), old(relationships), hypothesis, minVariables, maxPapers, maxIterations, svc)
    {
      var iterations := SearchIterations(hypothesis, minVariables, maxPapers, maxIterations);
      var synthesis := SynthesizeFindings(State(), svc);
      input := BuildSynthesisInput(hypothesis);
      display := BuildLiteratureDisplay(hypothesis, iterations, synthesis);
    }
  }

  /** A fresh agent records no relationships, so the generator receives no
      correlations from it. */
  method DiscoverWithFreshAgent(svc: Services, hypothesis: string, minVariables: int, maxPapers: int,
                                maxIterations: int)
    returns (input: SynthesisInput, display: LiteratureDisplay)
    ensures input.correlations == [] && input.hypothesis == hypothesis && input.source == SynthesisSource
    ensures (input, display)
      == DiscoveryResult(InitialState(), [], hypothesis, minVariables, maxPapers, maxIterations, svc)
  {
    var agent := new LiteratureDiscoveryAgentV2(svc);
    input, display := agent.DiscoverVariables(hypothesis, minVariables, maxPapers, maxIterations);
  }
}
