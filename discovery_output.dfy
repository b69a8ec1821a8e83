/** The two outputs of `discover_variables`: the minimal input for the
    synthetic-data generator (`_build_synthesis_input`) and the full record
    shown to the user (`_build_literature_display`). */
module DiscoveryOutput {
  import opened Common
  import opened Papers
  import Standardization
  import opened DiscoverySpec

  // ---------------------------------------------------------------------
  // synthesis_input

  /** The fields of a variable the generator receives. */
  datatype VariableSummary = VariableSummary(name: string, vtype: string, distribution: string,
                                             range: Option<Range>, units: Option<string>)

  /** A relationship between two variables; the agent never records one. */
  datatype Relationship = Relationship(var1: Option<string>, var2: Option<string>, effectSize: Option<real>)

  datatype Correlation = Correlation(var1: Option<string>, var2: Option<string>, correlation: real)

  datatype SynthesisInput = SynthesisInput(variables: seq<VariableSummary>, correlations: seq<Correlation>,
                                           hypothesis: string, source: string)

  const SynthesisSource := "literature_discovery"

  function SummaryOf(v: Variable): VariableSummary {
    VariableSummary(v.name, v.vtype, v.distribution, v.range, v.units)
  }

  function SummaryNames(d: seq<VariableSummary>): (r: seq<string>)
    ensures |r| == |d| && forall k :: 0 <= k < |d| ==> r[k] == d[k].name
  {
    if d == [] then [] else [d[0].name] + SummaryNames(d[1..])
  }

  /** The dictionary keyed by name that keeps the first variable of each
      name, as its values in insertion order. */
  function UniqueSummaries(vars: seq<Variable>): seq<VariableSummary> {
    if vars == [] then []
    else
      var d := UniqueSummaries(vars[..|vars| - 1]);
      var v := vars[|vars| - 1];
      if v.name in SummaryNames(d) then d else d + [SummaryOf(v)]
  }

  /** The names summarised are exactly the variables' names. */
  lemma {:induction false} UniqueSummariesNames(vars: seq<Variable>)
    ensures forall n :: n in SummaryNames(UniqueSummaries(vars)) <==> n in Standardization.Names(vars)
    decreases |vars|
  {
    if vars != [] {
      var init := vars[..|vars| - 1];
      var d := UniqueSummaries(init);
      var v := vars[|vars| - 1];
      UniqueSummariesNames(init);
      assert vars == init + [v];
      Standardization.NamesAppend(init, [v]);
      if v.name !in SummaryNames(d) {
        assert SummaryNames(d + [SummaryOf(v)]) == SummaryNames(d) + [v.name];
      }
    }
  }

  /** Every name is summarised once. */
  lemma {:induction false} UniqueSummariesOnce(vars: seq<Variable>)
    ensures NoRepeats(SummaryNames(UniqueSummaries(vars)))
    decreases |vars|
  {
    if vars != [] {
      var init := vars[..|vars| - 1];
      var d := UniqueSummaries(init);
      var v := vars[|vars| - 1];
      UniqueSummariesOnce(init);
      if v.name !in SummaryNames(d) {
        assert SummaryNames(d + [SummaryOf(v)]) == SummaryNames(d) + [v.name];
      }
    }
  }

  /** The first variable of each name is the one summarised. */
  lemma {:induction false} UniqueSummariesFirst(vars: seq<Variable>, k: nat)
    requires k < |vars|
    requires forall j :: 0 <= j < k ==> vars[j].name != vars[k].name
    ensures SummaryOf(vars[k]) in UniqueSummaries(vars)
    decreases |vars|
  {
    var init := vars[..|vars| - 1];
    var d := UniqueSummaries(init);
    if k < |vars| - 1 {
      UniqueSummariesFirst(init, k);
    } else {
      UniqueSummariesNames(init);
      assert vars[k].name !in Standardization.Names(init);
    }
  }

  /** `_build_synthesis_input` over the given variables, confounders and
      relationships. */
  function SynthesisInputOf(variables: seq<Variable>, confounders: seq<Variable>, relationships: seq<Relationship>,
                            hypothesis: string): SynthesisInput
  {
    SynthesisInput(UniqueSummaries(variables + confounders), Correlations(relationships), hypothesis, SynthesisSource)
  }

  function CorrelationOf(rel: Relationship): (c: Correlation)
    ensures c.var1 == rel.var1 && c.var2 == rel.var2
    ensures rel.effectSize.None? ==> c.correlation == 0.0
  {
    Correlation(rel.var1, rel.var2, if rel.effectSize.Some? then rel.effectSize.value else 0.0)
  }

  function Correlations(rels: seq<Relationship>): (r: seq<Correlation>)
    ensures |r| == |rels| && forall k :: 0 <= k < |rels| ==> r[k] == CorrelationOf(rels[k])
  {
    if rels == [] then [] else Correlations(rels[..|rels| - 1]) + [CorrelationOf(rels[|rels| - 1])]
  }

  // ---------------------------------------------------------------------
  // literature_display

  datatype AbstractDisplay = AbstractDisplay(background: Option<string>, methods: Option<string>,
                                             results: Option<string>, conclusions: Option<string>)

  datatype FullTextDisplay = FullTextDisplay(introduction: Option<string>, methods: Option<string>,
                                             results: Option<string>, discussion: Option<string>,
                                             conclusions: Option<string>)

  datatype PaperDisplay = PaperDisplay(
    pmid: string, doi: string, title: string, authors: seq<string>, journal: string, year: string,
    keywords: seq<string>, publicationTypes: seq<string>,
    abstractDisplay: AbstractDisplay, fullText: Option<FullTextDisplay>,
    pubmedLink: string, pmcLink: Option<string>, doiLink: Option<string>,
    variablesExtracted: seq<string>, relevance: string, keyFindings: string)

  datatype SynthesisDisplay = SynthesisDisplay(reasoning: string, keyRelationships: seq<string>,
                                               novelInsights: seq<string>, confidence: string)

  datatype LiteratureDisplay = LiteratureDisplay(
    hypothesis: string, papers: seq<PaperDisplay>, totalPapersAnalyzed: nat,
    variablesFound: nat, confoundersFound: nat, searchIterations: nat, synthesis: SynthesisDisplay)

  const PubmedPrefix := "https://pubmed.ncbi.nlm.nih.gov/"
  const PmcPrefix := "https://www.ncbi.nlm.nih.gov/pmc/articles/PMC"
  const DoiPrefix := "https://doi.org/"

  /** One paper's entry in the display. */
  function PaperDisplayOf(p: Paper): PaperDisplay {
    var a := p.abstractSections;
    var f := p.fullTextSections;
    PaperDisplay(
      p.pmid, p.doi, p.title, p.authors, p.journal, p.year, p.keywords, p.publicationTypes,
      AbstractDisplay(Lookup(a, "background"), Lookup(a, "methods"), Lookup(a, "results"), Lookup(a, "conclusions")),
      if f == [] then None
      else Some(FullTextDisplay(Lookup(f, "introduction"), Lookup(f, "methods"), Lookup(f, "results"),
                                Lookup(f, "discussion"), Lookup(f, "conclusions"))),
      PubmedPrefix + p.pmid + "/",
      if Truthy(p.pmcId) then Some(PmcPrefix + p.pmcId.value + "/") else None,
      if p.doi != "" then Some(DoiPrefix + p.doi) else None,
      if p.variablesExtracted.Some? then p.variablesExtracted.value else [],
      if p.analysis.Some? then p.analysis.value.relevance else "medium",
      if p.analysis.Some? then p.analysis.value.keyFindings else "")
  }

  /** The links a paper gets: always its PubMed page; a PMC page exactly
      when it has a non-empty PMC id; a DOI link exactly when it has a DOI;
      full text exactly when some section was fetched. */
  lemma {:induction false} PaperDisplayLinks(p: Paper)
    ensures var d := PaperDisplayOf(p);
      && d.pmid == p.pmid
      && StartsWith(d.pubmedLink, PubmedPrefix) && Contains(d.pubmedLink, p.pmid)
      && (d.pmcLink.Some? <==> Truthy(p.pmcId))
      && (d.doiLink.Some? <==> p.doi != "")
      && (d.fullText.None? <==> p.fullTextSections == [])
  {
    var link := PubmedPrefix + p.pmid + "/";
    assert link[..|PubmedPrefix|] == PubmedPrefix;
    assert link[|PubmedPrefix|..|PubmedPrefix| + |p.pmid|] == p.pmid;
    assert OccursAt(link, p.pmid, |PubmedPrefix|);
  }

  /** A paper the LLM did not analyse shows medium relevance, no findings
      and no variables. */
  lemma UnanalysedPaperDefaults(p: Paper)
    requires p.analysis.None? && p.variablesExtracted.None?
    ensures var d := PaperDisplayOf(p);
      d.relevance == "medium" && d.keyFindings == "" && d.variablesExtracted == []
  {
  }

  function PaperDisplays(papers: seq<Paper>): (r: seq<PaperDisplay>)
    ensures |r| == |papers| && forall k :: 0 <= k < |papers| ==> r[k] == PaperDisplayOf(papers[k])
  {
    if papers == [] then [] else PaperDisplays(papers[..|papers| - 1]) + [PaperDisplayOf(papers[|papers| - 1])]
  }

  /** `len(set(v['name'] for v in vs))`. */
  function NameSet(vs: seq<Variable>): set<string> {
    set v | v in vs :: v.name
  }

  /** There are never more names than entries, and exactly as many when the
      names are distinct. */
  lemma {:induction false} NameSetSize(vs: seq<Variable>)
    ensures |NameSet(vs)| <= |vs|
    ensures NoRepeats(Standardization.Names(vs)) ==> |NameSet(vs)| == |vs|
    decreases |vs|
  {
    if vs != [] {
      var rest := vs[1..];
      NameSetSize(rest);
      assert NameSet(vs) == {vs[0].name} + NameSet(rest);
      if NoRepeats(Standardization.Names(vs)) {
        Standardization.HeadNameFresh(vs);
        assert vs[0].name !in NameSet(rest);
      }
    }
  }

  /** `_build_literature_display`. */
  function LiteratureDisplayOf(s: AgentState, hypothesis: string, iterations: nat, synthesis: Synthesis): LiteratureDisplay {
    LiteratureDisplay(
      hypothesis, PaperDisplays(s.papers), |s.papers|, |NameSet(s.variables)|, |NameSet(s.confounders)|,
      iterations,
      SynthesisDisplay(synthesis.reasoningChain, synthesis.keyRelationships, synthesis.novelInsights, synthesis.confidence))
  }

  // ---------------------------------------------------------------------
  // The result of discover_variables

  /** The pair `discover_variables` returns, given the agent's recorded
      relationships. */
  function DiscoveryResult(s: AgentState, relationships: seq<Relationship>, hypothesis: string, minVariables: int,
                           maxPapers: int, maxIterations: int, svc: Services): (SynthesisInput, LiteratureDisplay)
  {
    var r := Discover(s, hypothesis, minVariables, maxPapers, maxIterations, svc);
    var synthesis := SynthesizeFindings(r.0, svc);
    (SynthesisInputOf(r.0.variables, r.0.confounders, relationships, hypothesis),
     LiteratureDisplayOf(r.0, hypothesis, r.1, synthesis))
  }

  /** After at least one iteration, the generator gets every variable and
      confounder once and in order, no correlations when no relationship
      was recorded, and the display counts them exactly. */
  lemma {:induction false} DiscoveryResultConsistent(s: AgentState, hypothesis: string, minVariables: int, maxPapers: int, maxIterations: int,
                                  svc: Services)
    requires maxIterations > 0
    ensures var r := Discover(s, hypothesis, minVariables, maxPapers, maxIterations, svc);
      var (input, display) := DiscoveryResult(s, [], hypothesis, minVariables, maxPapers, maxIterations, svc);
      && |input.variables| == |r.0.variables| + |r.0.confounders|
      && (forall k :: 0 <= k < |input.variables| ==> input.variables[k] == SummaryOf((r.0.variables + r.0.confounders)[k]))
      && input.correlations == [] && input.source == SynthesisSource
      && display.variablesFound == |r.0.variables| && display.confoundersFound == |r.0.confounders|
      && display.totalPapersAnalyzed == |display.papers|
      && display.hypothesis == input.hypothesis == hypothesis
  {
    var r := Discover(s, hypothesis, minVariables, maxPapers, maxIterations, svc);
    DiscoverClean(s, hypothesis, minVariables, maxPapers, maxIterations, svc);
    DiscoverCount(s, hypothesis, minVariables, maxPapers, maxIterations, svc);
    var all := r.0.variables + r.0.confounders;
    assert NoRepeats(Standardization.Names(all));
    DistinctSummaries(all);
    DistinctParts(r.0.variables, r.0.confounders);
    NameSetSize(r.0.variables);
    NameSetSize(r.0.confounders);
    DiscoverHypothesis(s, hypothesis, minVariables, maxPapers, maxIterations, svc);
  }

  /** With distinct names, nothing is dropped: one summary per variable, in
      order. */
  lemma {:induction false} DistinctSummaries(vars: seq<Variable>)
    requires NoRepeats(Standardization.Names(vars))
    ensures |UniqueSummaries(vars)| == |vars|
    ensures forall k :: 0 <= k < |vars| ==> UniqueSummaries(vars)[k] == SummaryOf(vars[k])
    decreases |vars|
  {
    if vars != [] {
      var init := vars[..|vars| - 1];
      var v := vars[|vars| - 1];
      assert NoRepeats(Standardization.Names(init)) by {
        forall i, j | 0 <= i < j < |init|
          ensures Standardization.Names(init)[i] != Standardization.Names(init)[j]
        {
          assert Standardization.Names(vars)[i] != Standardization.Names(vars)[j];
        }
      }
      DistinctSummaries(init);
      UniqueSummariesNames(init);
      forall j | 0 <= j < |init|
        ensures Standardization.Names(init)[j] != v.name
      {
        assert Standardization.Names(vars)[j] != Standardization.Names(vars)[|vars| - 1];
      }
    }
  }

  /** The two parts of a list with distinct names have distinct names. */
  lemma {:induction false} DistinctParts(a: seq<Variable>, b: seq<Variable>)
    requires NoRepeats(Standardization.Names(a + b))
    ensures NoRepeats(Standardization.Names(a)) && NoRepeats(Standardization.Names(b))
  {
    Standardization.NamesAppend(a, b);
    NoRepeatsParts(Standardization.Names(a), Standardization.Names(b));
  }

  lemma {:induction false} NoRepeatsParts(x: seq<string>, y: seq<string>)
    requires NoRepeats(x + y)
    ensures NoRepeats(x) && NoRepeats(y)
  {
    forall i, j | 0 <= i < j < |x|
      ensures x[i] != x[j]
    {
      assert (x + y)[i] == x[i] && (x + y)[j] == x[j];
    }
    forall i, j | 0 <= i < j < |y|
      ensures y[i] != y[j]
    {
      assert (x + y)[i + |x|] == y[i] && (x + y)[j + |x|] == y[j];
    }
  }
}
