/** The literature discovery agent: it finds the papers most relevant to a
    hypothesis, has the LLM analyse the top ten of them, follows the papers
    citing the top five, and collects the variables, genes and variants the
    analyses mention. NCBI and the LLM are oracles; the replies are parsed
    after their code fence is stripped. */
module LiteratureAgent {
  import opened Common
  import CodeFence

  /** The parts of a paper's analysis JSON the agent accumulates: the lists
      under "variables_measured", "genes_mentioned" and "variants_mentioned"
      (empty when a key is missing). */
  datatype Analysis = Analysis(variables: seq<string>, genes: seq<string>, variants: seq<string>)

  /** A paper: its PMID, the title and publication date when the summary
      gave them, and its analysis once it has one. */
  datatype Paper = Paper(pmid: string, title: Option<string>, pubdate: Option<string>, analysis: Option<Analysis>)

  /** What the synthesis JSON holds. */
  datatype Synthesis = Synthesis(patterns: seq<string>, novelHypotheses: seq<string>, summary: string)

  /** The accumulated findings: the analysed papers and, in the order they
      were reported, every variable, gene and variant mentioned. */
  datatype Findings = Findings(papers: seq<Paper>, variables: seq<string>, genes: seq<string>, variants: seq<string>)

  /** The NCBI client and the LLM:
      - `buildQuery`: the LLM's reply to the query-construction prompt;
      - `search`: the PMIDs found for a search term and `retmax`;
      - `summary`: a paper's title and publication date ("" when missing);
      - `analyze`: the LLM's reply analysing the paper with a PMID (its
        abstract or full text fetched by the client) for a hypothesis;
      - `parseAnalysis`, `parseSynthesis`: `json.loads`, `None` when it raises;
      - `citing`: the PMIDs of the papers citing a PMID;
      - `synthesize`: the LLM's reply to the synthesis prompt. */
  datatype Services = Services(
    buildQuery: string -> string,
    search: (string, int) -> seq<string>,
    summary: string -> (string, string),
    analyze: (string, string) -> string,
    parseAnalysis: string -> Option<Analysis>,
    citing: string -> seq<string>,
    synthesize: (string, Findings) -> string,
    parseSynthesis: string -> Option<Synthesis>)

  // ---------------------------------------------------------------------
  // Common elements

  /** The position of the first `x` in `s`, or `|s|` when there is none. */
  function IndexOf<T(==)>(s: seq<T>, x: T): (k: nat)
    ensures k <= |s|
    ensures k < |s| <==> x in s
    ensures k < |s| ==> s[k] == x
  {
    if s == [] then 0
    else if s[0] == x then 0
    else IndexOf(s[1..], x) + 1
  }

  /** No `x` comes before the first one. */
  lemma {:induction false} IndexOfFirst<T>(s: seq<T>, x: T)
    ensures x !in s[..IndexOf(s, x)]
  {
    if s != [] && s[0] != x {
      IndexOfFirst(s[1..], x);
      var k := IndexOf(s[1..], x);
      assert s[..k + 1] == [s[0]] + s[1..][..k];
    }
  }

  /** A position holding `x` with no `x` before it is the first one. */
  lemma {:induction false} IndexOfUnique<T>(s: seq<T>, x: T, k: nat)
    requires k < |s| && s[k] == x && x !in s[..k]
    ensures IndexOf(s, x) == k
  {
    if k > 0 {
      assert s[0] == s[..k][0];
      assert s[1..][..k - 1] == s[..k][1..];
      IndexOfUnique(s[1..], x, k - 1);
    }
  }

  /** The distinct elements of `s` in the order of their first occurrence. */
  function FirstOccurrences<T(==)>(s: seq<T>): seq<T> {
    if s == [] then []
    else
      var init := s[..|s| - 1];
      var last := s[|s| - 1];
      FirstOccurrences(init) + (if last in init then [] else [last])
  }

  predicate NoDuplicates<T(==)>(s: seq<T>) {
    forall i, j :: 0 <= i < j < |s| ==> s[i] != s[j]
  }

  /** The elements of `r` appear in the order of their first occurrence in
      `items`. */
  predicate InFirstOccurrenceOrder<T(==)>(r: seq<T>, items: seq<T>) {
    forall i, j :: 0 <= i < j < |r| ==> IndexOf(items, r[i]) < IndexOf(items, r[j])
  }

  /** `FirstOccurrences` keeps each element of `s` exactly once, ordered by
      where it first occurs. */
  lemma {:induction false} FirstOccurrencesProperties<T>(s: seq<T>)
    ensures forall x :: x in FirstOccurrences(s) <==> x in s
    ensures NoDuplicates(FirstOccurrences(s))
    ensures InFirstOccurrenceOrder(FirstOccurrences(s), s)
  {
    if s != [] {
      var init := s[..|s| - 1];
      var last := s[|s| - 1];
      var d := FirstOccurrences(init);
      FirstOccurrencesProperties(init);
      assert s == init + [last];
      forall y | y in init
        ensures IndexOf(s, y) == IndexOf(init, y)
      {
        var k := IndexOf(init, y);
        IndexOfFirst(init, y);
        assert s[..k] == init[..k];
        IndexOfUnique(s, y, k);
      }
      if last !in init {
        assert s[..|init|] == init;
        IndexOfUnique(s, last, |init|);
        var r := FirstOccurrences(s);
        assert r == d + [last];
        forall i, j | 0 <= i < j < |r|
          ensures IndexOf(s, r[i]) < IndexOf(s, r[j])
        {
          var a := d[i];
          assert r[i] == a && a in d;
          InFirstOccurrences(init, a);
          assert IndexOf(s, a) == IndexOf(init, a) < |init|;
          if j < |d| {
            var b := d[j];
            assert r[j] == b && b in d;
            InFirstOccurrences(init, b);
            assert IndexOf(s, b) == IndexOf(init, b);
          } else {
            assert r[j] == last;
          }
        }
      }
    }
  }

  lemma {:induction false} InFirstOccurrences<T>(s: seq<T>, x: T)
    requires x in FirstOccurrences(s)
    ensures x in s
  {
    FirstOccurrencesMembers(s);
  }

  lemma {:induction false} FirstOccurrencesMembers<T>(s: seq<T>)
    ensures forall x :: x in FirstOccurrences(s) <==> x in s
  {
    if s != [] {
      FirstOccurrencesMembers(s[..|s| - 1]);
      assert s == s[..|s| - 1] + [s[|s| - 1]];
    }
  }

  /** The elements of `ds` that occur at least `minCount` times in `items`. */
  function KeepFrequent(ds: seq<string>, items: seq<string>, minCount: int): (r: seq<string>)
    ensures forall x :: x in r <==> x in ds && multiset(items)[x] >= minCount
    ensures NoDuplicates(ds) ==> NoDuplicates(r)
  {
    if ds == [] then []
    else
      var init := ds[..|ds| - 1];
      var last := ds[|ds| - 1];
      assert ds == init + [last];
      KeepFrequent(init, items, minCount) + (if multiset(items)[last] >= minCount then [last] else [])
  }

  /** `_find_common_elements`: the items counted at least `minCount` times,
      each once, in the order the counter first saw them. */
  function FindCommonElements(items: seq<string>, minCount: int): seq<string> {
    KeepFrequent(FirstOccurrences(items), items, minCount)
  }

  /** An item is common exactly when it occurs at least `minCount` times;
      no item is listed twice. */
  lemma {:induction false} CommonElementsAreFrequent(items: seq<string>, minCount: int)
    ensures forall x :: x in FindCommonElements(items, minCount) <==> x in items && multiset(items)[x] >= minCount
    ensures NoDuplicates(FindCommonElements(items, minCount))
  {
    FirstOccurrencesProperties(items);
  }

  /** The common items keep the order of their first occurrences. */
  lemma {:induction false} CommonElementsInFirstOccurrenceOrder(items: seq<string>, minCount: int)
    ensures InFirstOccurrenceOrder(FindCommonElements(items, minCount), items)
  {
    FirstOccurrencesProperties(items);
    KeepOrder(FirstOccurrences(items), items, minCount);
  }

  /** Filtering keeps relative order: what `ds` orders by first occurrence
      in `items`, the kept elements are ordered by too. */
  lemma {:induction false} KeepOrder(ds: seq<string>, items: seq<string>, minCount: int)
    requires InFirstOccurrenceOrder(ds, items)
    ensures InFirstOccurrenceOrder(KeepFrequent(ds, items, minCount), items)
  {
    if ds != [] {
      var init := ds[..|ds| - 1];
      var last := ds[|ds| - 1];
      assert forall i, j :: 0 <= i < j < |init| ==> init[i] == ds[i] && init[j] == ds[j];
      KeepOrder(init, items, minCount);
      var k := KeepFrequent(init, items, minCount);
      var r := KeepFrequent(ds, items, minCount);
      assert r == k + (if multiset(items)[last] >= minCount then [last] else []);
      forall i, j | 0 <= i < j < |r|
        ensures IndexOf(items, r[i]) < IndexOf(items, r[j])
      {
        if j >= |k| {
          assert r[j] == last;
          var e := k[i];
          assert r[i] == e && e in k;
          assert e in init;
          var a := IndexOf(init, e);
          assert ds[a] == init[a] == e;
          assert IndexOf(items, ds[a]) < IndexOf(items, ds[|ds| - 1]);
          assert IndexOf(items, r[i]) < IndexOf(items, r[j]);
        } else {
          assert r[i] == k[i] && r[j] == k[j];
          assert IndexOf(items, k[i]) < IndexOf(items, k[j]);
        }
      }
    }
  }

  // ---------------------------------------------------------------------
  // Paper analysis

  /** The analysis of a paper: the LLM's reply, without its code fence,
      parsed; `None` when the JSON does not parse. */
  function ParsedAnalysis(paper: Paper, hypothesis: string, svc: Services): Option<Analysis> {
    svc.parseAnalysis(CodeFence.StripCodeFence(svc.analyze(paper.pmid, hypothesis), "json"))
  }

  /** One paper of `_analyze_papers_in_depth`: a paper whose analysis parses
      is stored with it and its lists are appended; otherwise nothing
      changes. */
  function AnalyzeOne(f: Findings, paper: Paper, hypothesis: string, svc: Services): Findings {
    match ParsedAnalysis(paper, hypothesis, svc)
    case None => f
    case Some(a) =>
      Findings(f.papers + [paper.(analysis := Some(a))], f.variables + a.variables,
               f.genes + a.genes, f.variants + a.variants)
  }

  function AnalyzeAll(f: Findings, papers: seq<Paper>, hypothesis: string, svc: Services): Findings {
    if papers == [] then f
    else AnalyzeOne(AnalyzeAll(f, papers[..|papers| - 1], hypothesis, svc), papers[|papers| - 1], hypothesis, svc)
  }

  /** The papers whose analysis parses, in order, each with its analysis. */
  function Parsing(papers: seq<Paper>, hypothesis: string, svc: Services): (r: seq<Paper>)
    ensures |r| <= |papers|
    ensures forall p :: p in r ==> p.analysis.Some?
  {
    if papers == [] then []
    else
      var p := papers[|papers| - 1];
      Parsing(papers[..|papers| - 1], hypothesis, svc) +
        (match ParsedAnalysis(p, hypothesis, svc)
         case None => []
         case Some(a) => [p.(analysis := Some(a))])
  }

  /** The variables of the analysed papers, in order. */
  function VariablesOf(papers: seq<Paper>): seq<string> {
    if papers == [] then []
    else
      var p := papers[|papers| - 1];
      VariablesOf(papers[..|papers| - 1]) + (if p.analysis.Some? then p.analysis.value.variables else [])
  }

  /** Analysing papers appends exactly the papers whose analysis parses, in
      order, and exactly their variables; what was there stays. */
  lemma {:induction false} AnalyzeAllAppendsParsing(f: Findings, papers: seq<Paper>, hypothesis: string, svc: Services)
    ensures AnalyzeAll(f, papers, hypothesis, svc).papers == f.papers + Parsing(papers, hypothesis, svc)
    ensures AnalyzeAll(f, papers, hypothesis, svc).variables == f.variables + VariablesOf(Parsing(papers, hypothesis, svc))
  {
    if papers != [] {
      var init := papers[..|papers| - 1];
      var p := papers[|papers| - 1];
      AnalyzeAllAppendsParsing(f, init, hypothesis, svc);
      var ps := Parsing(init, hypothesis, svc);
      match ParsedAnalysis(p, hypothesis, svc)
      case None =>
        assert Parsing(papers, hypothesis, svc) == ps + [];
        assert ps + [] == ps;
      case Some(a) =>
        var q := p.(analysis := Some(a));
        assert Parsing(papers, hypothesis, svc) == ps + [q];
        assert (ps + [q])[..|ps|] == ps;
        assert f.papers + ps + [q] == f.papers + (ps + [q]);
        assert f.variables + VariablesOf(ps) + a.variables == f.variables + (VariablesOf(ps) + a.variables);
    }
  }

  /** A paper is stored only with an analysis that parsed, and only when it
      is one of the papers given. */
  lemma {:induction false} ParsingFromInput(papers: seq<Paper>, hypothesis: string, svc: Services)
    ensures forall q :: q in Parsing(papers, hypothesis, svc) ==>
      exists p :: p in papers && ParsedAnalysis(p, hypothesis, svc).Some?
        && q == p.(analysis := ParsedAnalysis(p, hypothesis, svc))
  {
    if papers != [] {
      var init := papers[..|papers| - 1];
      ParsingFromInput(init, hypothesis, svc);
      forall q | q in Parsing(papers, hypothesis, svc)
        ensures exists p :: (p in papers && ParsedAnalysis(p, hypothesis, svc).Some?
          && q == p.(analysis := ParsedAnalysis(p, hypothesis, svc)))
      {
        if q in Parsing(init, hypothesis, svc) {
          var p :| p in init && ParsedAnalysis(p, hypothesis, svc).Some?
            && q == p.(analysis := ParsedAnalysis(p, hypothesis, svc));
          assert p in papers;
        } else {
          assert papers[|papers| - 1] in papers;
        }
      }
    }
  }

  // ---------------------------------------------------------------------
  // Citations

  function PmidsOf(papers: seq<Paper>): (r: seq<string>)
    ensures |r| == |papers| && forall k :: 0 <= k < |r| ==> r[k] == papers[k].pmid
  {
    if papers == [] then [] else PmidsOf(papers[..|papers| - 1]) + [papers[|papers| - 1].pmid]
  }

  /** One citing PMID: analysed (with an empty hypothesis) unless a paper
      with that PMID was already analysed. */
  function FollowCitation(f: Findings, citingPmid: string, svc: Services): Findings {
    if citingPmid in PmidsOf(f.papers) then f
    else AnalyzeAll(f, [Paper(citingPmid, None, None, None)], "", svc)
  }

  function FollowCitations(f: Findings, pmids: seq<string>, svc: Services): Findings {
    if pmids == [] then f
    else FollowCitation(FollowCitations(f, pmids[..|pmids| - 1], svc), pmids[|pmids| - 1], svc)
  }

  /** The PMIDs followed for one paper: the first five of those citing it. */
  function CitingConsidered(paper: Paper, svc: Services): (r: seq<string>)
    ensures |r| <= 5
  {
    PySliceTo(svc.citing(paper.pmid), 5)
  }

  /** `_expand_via_citations`. */
  function ExpandAll(f: Findings, papers: seq<Paper>, svc: Services): Findings {
    if papers == [] then f
    else
      var p := papers[|papers| - 1];
      FollowCitations(ExpandAll(f, papers[..|papers| - 1], svc), CitingConsidered(p, svc), svc)
  }

  /** Following a citation never analyses a PMID twice: analysed PMIDs that
      were distinct stay distinct, and at most one paper is added. */
  lemma {:induction false} FollowCitationKeepsPmidsDistinct(f: Findings, citingPmid: string, svc: Services)
    ensures NoDuplicates(PmidsOf(f.papers)) ==> NoDuplicates(PmidsOf(FollowCitation(f, citingPmid, svc).papers))
    ensures f.papers <= FollowCitation(f, citingPmid, svc).papers
    ensures |FollowCitation(f, citingPmid, svc).papers| <= |f.papers| + 1
  {
    var p := Paper(citingPmid, None, None, None);
    assert [p][..0] == [];
    assert AnalyzeAll(f, [p], "", svc) == AnalyzeOne(f, p, "", svc);
  }

  lemma {:induction false} FollowCitationsProperties(f: Findings, pmids: seq<string>, svc: Services)
    ensures NoDuplicates(PmidsOf(f.papers)) ==> NoDuplicates(PmidsOf(FollowCitations(f, pmids, svc).papers))
    ensures f.papers <= FollowCitations(f, pmids, svc).papers
    ensures |FollowCitations(f, pmids, svc).papers| <= |f.papers| + |pmids|
  {
    if pmids != [] {
      var g := FollowCitations(f, pmids[..|pmids| - 1], svc);
      FollowCitationsProperties(f, pmids[..|pmids| - 1], svc);
      FollowCitationKeepsPmidsDistinct(g, pmids[|pmids| - 1], svc);
    }
  }

  /** Expanding through the citations of `papers` adds at most five papers
      for each of them, keeps what was analysed, and never analyses an
      already analysed PMID again. */
  lemma {:induction false} ExpandAllProperties(f: Findings, papers: seq<Paper>, svc: Services)
    ensures NoDuplicates(PmidsOf(f.papers)) ==> NoDuplicates(PmidsOf(ExpandAll(f, papers, svc).papers))
    ensures f.papers <= ExpandAll(f, papers, svc).papers
    ensures |ExpandAll(f, papers, svc).papers| <= |f.papers| + 5 * |papers|
  {
    if papers != [] {
      var init := papers[..|papers| - 1];
      ExpandAllProperties(f, init, svc);
      FollowCitationsProperties(ExpandAll(f, init, svc), CitingConsidered(papers[|papers| - 1], svc), svc);
    }
  }

  /** A citing paper is skipped when its PMID was already analysed. */
  lemma AnalysedCitationSkipped(f: Findings, citingPmid: string, svc: Services)
    requires citingPmid in PmidsOf(f.papers)
    ensures FollowCitation(f, citingPmid, svc) == f
  {
  }

  // ---------------------------------------------------------------------
  // The agent

  /** The result of `analyze`: the number of analysed papers, the
      synthesis, and the distinct variables and genes mentioned. */
  datatype Summary = Summary(papersAnalyzed: nat, synthesis: Synthesis, allVariables: set<string>, allGenes: set<string>)

  /** The papers found for a hypothesis: the PMIDs the search returns for
      the LLM's query, at most `maxResults` of them, with their summaries. */
  function RelevantPapers(hypothesis: string, maxResults: int, svc: Services): seq<Paper> {
    PapersFor(PySliceTo(svc.search(Strip(svc.buildQuery(hypothesis)), maxResults), maxResults), svc)
  }

  function PapersFor(pmids: seq<string>, svc: Services): (r: seq<Paper>)
    ensures |r| == |pmids|
    ensures forall k :: 0 <= k < |r| ==> r[k].pmid == pmids[k] && r[k].analysis.None?
  {
    if pmids == [] then []
    else
      var pmid := pmids[|pmids| - 1];
      var (title, pubdate) := svc.summary(pmid);
      PapersFor(pmids[..|pmids| - 1], svc) + [Paper(pmid, Some(title), Some(pubdate), None)]
  }

  class LiteratureDiscoveryAgent {
    const svc: Services
    var papersAnalyzed: seq<Paper>
    var extractedVariables: seq<string>
    var mentionedGenes: seq<string>
    var mentionedVariants: seq<string>

    function State(): Findings
      reads this
    {
      Findings(papersAnalyzed, extractedVariables, mentionedGenes, mentionedVariants)
    }

    constructor(svc: Services)
      ensures this.svc == svc
      ensures State() == Findings([], [], [], [])
    {
      this.svc := svc;
      papersAnalyzed := [];
      extractedVariables := [];
      mentionedGenes := [];
      mentionedVariants := [];
    }

    /** `_find_relevant_papers`. */
    method FindRelevantPapers(hypothesis: string, maxResults: int) returns (papers: seq<Paper>)
      ensures papers == RelevantPapers(hypothesis, maxResults, svc)
      ensures maxResults >= 0 ==> |papers| <= maxResults
    {
      var searchQuery := Strip(svc.buildQuery(hypothesis));
      var pmids := svc.search(searchQuery, maxResults);
      var considered := PySliceTo(pmids, maxResults);
      papers := [];
      for i := 0 to |considered|
        invariant papers == PapersFor(considered[..i], svc)
      {
        assert considered[..i + 1][..i] == considered[..i];
        var pmid := considered[i];
        var (title, pubdate) := svc.summary(pmid);
        papers := papers + [Paper(pmid, Some(title), Some(pubdate), None)];
      }
      assert considered[..|considered|] == considered;
    }

    /** `_analyze_papers_in_depth`. */
    method AnalyzePapersInDepth(papers: seq<Paper>, hypothesis: string)
      modifies this
      ensures State() == AnalyzeAll(old(State()), papers, hypothesis, svc)
    {
      ghost var start := State();
      for i := 0 to |papers|
        invariant State() == AnalyzeAll(start, papers[..i], hypothesis, svc)
      {
        assert papers[..i + 1][..i] == papers[..i];
        var paper := papers[i];
        var responseText := svc.analyze(paper.pmid, hypothesis);
        var parsed := svc.parseAnalysis(CodeFence.StripCodeFence(responseText, "json"));
        if parsed.Some? {
          var analysis := parsed.value;
          papersAnalyzed := papersAnalyzed + [paper.(analysis := Some(analysis))];
          extractedVariables := extractedVariables + analysis.variables;
          mentionedGenes := mentionedGenes + analysis.genes;
          mentionedVariants := mentionedVariants + analysis.variants;
        }
      }
      assert papers[..|papers|] == papers;
    }

    /** `_expand_via_citations`. */
    method ExpandViaCitations(papers: seq<Paper>)
      modifies this
      ensures State() == ExpandAll(old(State()), papers, svc)
    {
      ghost var start := State();
      for i := 0 to |papers|
        invariant State() == ExpandAll(start, papers[..i], svc)
      {
        assert papers[..i + 1][..i] == papers[..i];
        FollowCitingPapers(CitingConsidered(papers[i], svc));
      }
      assert papers[..|papers|] == papers;
    }

    /** The inner loop of `_expand_via_citations`: each citing paper not yet
        analysed is analysed in depth, with no hypothesis. */
    method FollowCitingPapers(linked: seq<string>)
      modifies this
      ensures State() == FollowCitations(old(State()), linked, svc)
    {
      for j := 0 to |linked|
        invariant State() == FollowCitations(old(State()), linked[..j], svc)
      {
        assert linked[..j + 1][..j] == linked[..j];
        var citingPmid := linked[j];
        if citingPmid !in PmidsOf(papersAnalyzed) {
          AnalyzePapersInDepth([Paper(citingPmid, None, None, None)], "");
        }
      }
      assert linked[..|linked|] == linked;
    }

    /** `analyze`: find the papers, analyse the first ten, follow the
        citations of the first five of those, then synthesise. The synthesis
        prompt reads the publication date of the first analysed paper, which a
        paper reached through a citation does not have, so that case fails
        before the LLM is asked; the synthesis JSON failing to parse is the
        other failure of the whole analysis. */
    method Analyze(hypothesis: string, maxPapers: int) returns (r: Result<Summary, string>)
      modifies this
      ensures var relevant := RelevantPapers(hypothesis, maxPapers, svc);
        var top := relevant[..Min(10, |relevant|)];
        State() == ExpandAll(AnalyzeAll(old(State()), top, hypothesis, svc), top[..Min(5, |top|)], svc)
      ensures PubdateMissing(State()) ==> r == Err("KeyError: 'pubdate'")
      ensures r.Ok? <==> !PubdateMissing(State()) && svc.parseSynthesis(CodeFence.StripCodeFence(svc.synthesize(hypothesis, State()), "json")).Some?
      ensures r.Ok? ==>
        && r.value.papersAnalyzed == |papersAnalyzed|
        && r.value.synthesis == svc.parseSynthesis(CodeFence.StripCodeFence(svc.synthesize(hypothesis, State()), "json")).value
        && (forall x :: x in r.value.allVariables <==> x in extractedVariables)
        && (forall x :: x in r.value.allGenes <==> x in mentionedGenes)
    {
      var relevantPapers := FindRelevantPapers(hypothesis, maxPapers);
      var topPapers := relevantPapers[..Min(10, |relevantPapers|)];
      AnalyzePapersInDepth(topPapers, hypothesis);
      ExpandViaCitations(topPapers[..Min(5, |topPapers|)]);
      if |papersAnalyzed| > 0 && papersAnalyzed[0].pubdate.None? {
        return Err("KeyError: 'pubdate'");
      }
      var responseText := svc.synthesize(hypothesis, State());
      var synthesis := svc.parseSynthesis(CodeFence.StripCodeFence(responseText, "json"));
      if synthesis.None? {
        return Err("JSONDecodeError");
      }
      var allVariables := set x | x in extractedVariables;
      var allGenes := set x | x in mentionedGenes;
      r := Ok(Summary(|papersAnalyzed|, synthesis.value, allVariables, allGenes));
    }
  }

  /** The synthesis prompt's `papers_analyzed[0]['pubdate']` raises: the
      first analysed paper was reached through a citation. */
  predicate PubdateMissing(f: Findings) {
    f.papers != [] && f.papers[0].pubdate.None?
  }

  /** Every paper a citation adds has no publication date. */
  lemma {:induction false} CitingPapersHaveNoPubdate(f: Findings, pmids: seq<string>, svc: Services)
    ensures var g := FollowCitations(f, pmids, svc);
      f.papers <= g.papers && forall k :: |f.papers| <= k < |g.papers| ==> g.papers[k].pubdate.None?
  {
    if pmids != [] {
      var g := FollowCitations(f, pmids[..|pmids| - 1], svc);
      CitingPapersHaveNoPubdate(f, pmids[..|pmids| - 1], svc);
      var pmid := pmids[|pmids| - 1];
      if pmid !in PmidsOf(g.papers) {
        AnalyzeAllAppendsParsing(g, [Paper(pmid, None, None, None)], "", svc);
        assert [Paper(pmid, None, None, None)][..0] == [];
      }
    }
  }

  /** An agent with nothing analysed whose first parsing analysis is that of
      a citing paper fails on the publication date. */
  lemma CitationFirstFailsOnPubdate(f: Findings, pmids: seq<string>, svc: Services)
    requires f.papers == []
    requires |FollowCitations(f, pmids, svc).papers| > 0
    ensures PubdateMissing(FollowCitations(f, pmids, svc))
  {
    CitingPapersHaveNoPubdate(f, pmids, svc);
  }

  function Min(a: int, b: int): int {
    if a < b then a else b
  }

  /** One call of `analyze` adds at most 10 deeply analysed papers and at
      most 25 citing papers. */
  lemma {:induction false} AnalyzeAddsAtMost35(f: Findings, relevant: seq<Paper>, hypothesis: string, svc: Services)
    ensures var top := relevant[..Min(10, |relevant|)];
      var g := ExpandAll(AnalyzeAll(f, top, hypothesis, svc), top[..Min(5, |top|)], svc);
      f.papers <= g.papers && |g.papers| <= |f.papers| + 35
  {
    var top := relevant[..Min(10, |relevant|)];
    AnalyzeAllAppendsParsing(f, top, hypothesis, svc);
    ExpandAllProperties(AnalyzeAll(f, top, hypothesis, svc), top[..Min(5, |top|)], svc);
  }
}
