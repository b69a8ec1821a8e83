/** The dataset discovery agent: the searches planned by the LLM are run
    against CKAN and SODA portals, every hit is tagged with where it came
    from, the LLM scores the hits in batches of twenty, the scored hits are
    sorted by relevance, and the best ones are enriched with access details.
    The LLM, the JSON parser and the portal clients are oracles. */
module DatasetDiscovery {
  import opened Common
  import Sorting
  import CodeFence

  /** A JSON value as the agent handles it. */
  datatype Value =
    | Null
    | Bool(b: bool)
    | Num(n: real)
    | Str(s: string)
    | Arr(items: seq<Value>)
    | Obj(members: map<string, Value>)

  /** A dataset or search hit: a JSON dictionary. */
  type Dict = map<string, Value>

  /** Python truthiness of a JSON value. */
  predicate Truthy(v: Value) {
    match v
    case Null => false
    case Bool(b) => b
    case Num(n) => n != 0.0
    case Str(s) => s != ""
    case Arr(items) => items != []
    case Obj(members) => members != map[]
  }

  /** `d.get(key)`, `None` when missing. */
  function Get(d: Dict, key: string): Value {
    if key in d then d[key] else Null
  }

  /** `d.get(key, default)`. */
  function GetOr(d: Dict, key: string, default: Value): (v: Value)
    ensures key !in d ==> v == default
    ensures key in d ==> v == d[key]
  {
    if key in d then d[key] else default
  }

  // ---------------------------------------------------------------------
  // Searches

  /** One query of a portal, with the filters handed to the search tool. */
  datatype QuerySpec = QuerySpec(query: string, tags: Value, categories: Value)

  /** A portal of the search strategy: its name, its type ("ckan" or
      "soda"), its base URL and its queries. */
  datatype Portal = Portal(name: string, portalType: string, baseUrl: string, queries: seq<QuerySpec>)

  /** A search tool: given the base URL and the query, the hits under
      "results" (none when that key is missing), or the exception it
      raised. */
  type SearchTool = (string, QuerySpec) -> Result<seq<Dict>, string>

  /** A hit tagged with its source, portal and base URL; members of the hit
      itself win over the tags, as in `{'source': ..., **dataset}`. */
  function Tagged(source: string, p: Portal, hit: Dict): (r: Dict)
    ensures forall k :: k in hit ==> k in r && r[k] == hit[k]
    ensures "source" in r && "portal" in r && "base_url" in r
    ensures "source" !in hit ==> r["source"] == Str(source)
    ensures "portal" !in hit ==> r["portal"] == Str(p.name)
    ensures "base_url" !in hit ==> r["base_url"] == Str(p.baseUrl)
    ensures r.Keys == hit.Keys + {"source", "portal", "base_url"}
  {
    map["source" := Str(source), "portal" := Str(p.name), "base_url" := Str(p.baseUrl)] + hit
  }

  /** Where a search result came from: its portal and the untagged hit. */
  datatype Origin = Origin(portal: Portal, hit: Dict)

  function OriginsOf(p: Portal, hits: seq<Dict>): (r: seq<Origin>)
    ensures |r| == |hits|
    ensures forall k :: 0 <= k < |r| ==> r[k] == Origin(p, hits[k])
  {
    if hits == [] then [] else OriginsOf(p, hits[..|hits| - 1]) + [Origin(p, hits[|hits| - 1])]
  }

  /** The hits of one query: those of the CKAN tool for a "ckan" portal, of
      the SODA tool for a "soda" portal; none for another portal type or
      when the tool raised. */
  function QueryOrigins(p: Portal, q: QuerySpec, ckan: SearchTool, soda: SearchTool): seq<Origin> {
    var outcome := if p.portalType == "ckan" then ckan(p.baseUrl, q)
                   else if p.portalType == "soda" then soda(p.baseUrl, q)
                   else Ok([]);
    if outcome.Ok? then OriginsOf(p, outcome.value) else []
  }

  function PortalOrigins(p: Portal, queries: seq<QuerySpec>, ckan: SearchTool, soda: SearchTool): seq<Origin> {
    if queries == [] then []
    else PortalOrigins(p, queries[..|queries| - 1], ckan, soda) + QueryOrigins(p, queries[|queries| - 1], ckan, soda)
  }

  /** The origins of all results, portal by portal and query by query. */
  function SearchOrigins(portals: seq<Portal>, ckan: SearchTool, soda: SearchTool): seq<Origin> {
    if portals == [] then []
    else
      var p := portals[|portals| - 1];
      SearchOrigins(portals[..|portals| - 1], ckan, soda) + PortalOrigins(p, p.queries, ckan, soda)
  }

  /** A result as it is collected: the hit tagged with its portal's type. */
  function TagOrigin(o: Origin): Dict {
    Tagged(o.portal.portalType, o.portal, o.hit)
  }

  function TagAll(origins: seq<Origin>): (r: seq<Dict>)
    ensures |r| == |origins|
    ensures forall k :: 0 <= k < |r| ==> r[k] == TagOrigin(origins[k])
  {
    if origins == [] then [] else TagAll(origins[..|origins| - 1]) + [TagOrigin(origins[|origins| - 1])]
  }

  lemma TagAllAppend(a: seq<Origin>, b: seq<Origin>)
    ensures TagAll(a + b) == TagAll(a) + TagAll(b)
  {
    var l, r := TagAll(a + b), TagAll(a) + TagAll(b);
    forall k | 0 <= k < |l| ensures l[k] == r[k] {
      if k < |a| {
        assert (a + b)[k] == a[k];
      } else {
        assert (a + b)[k] == b[k - |a|];
      }
    }
  }

  /** The results of one query, tagged. */
  method SearchQuery(p: Portal, q: QuerySpec, ckan: SearchTool, soda: SearchTool) returns (found: seq<Dict>)
    ensures found == TagAll(QueryOrigins(p, q, ckan, soda))
  {
    var outcome := Ok([]);
    if p.portalType == "ckan" {
      outcome := ckan(p.baseUrl, q);
    } else if p.portalType == "soda" {
      outcome := soda(p.baseUrl, q);
    }
    found := [];
    if outcome.Ok? {
      var hits := outcome.value;
      for k := 0 to |hits|
        invariant found == TagAll(OriginsOf(p, hits[..k]))
      {
        assert hits[..k + 1][..k] == hits[..k];
        found := found + [Tagged(p.portalType, p, hits[k])];
      }
      assert hits[..|hits|] == hits;
    }
  }

  /** The results of every query of one portal, in order. */
  method SearchPortal(p: Portal, ckan: SearchTool, soda: SearchTool) returns (found: seq<Dict>)
    ensures found == TagAll(PortalOrigins(p, p.queries, ckan, soda))
  {
    var queries := p.queries;
    found := [];
    for j := 0 to |queries|
      invariant found == TagAll(PortalOrigins(p, queries[..j], ckan, soda))
    {
      assert queries[..j + 1][..j] == queries[..j];
      var more := SearchQuery(p, queries[j], ckan, soda);
      PortalOriginsStep(p, queries, j, ckan, soda);
      TagAllAppend(PortalOrigins(p, queries[..j], ckan, soda), QueryOrigins(p, queries[j], ckan, soda));
      found := found + more;
    }
    assert queries[..|queries|] == queries;
  }

  lemma {:induction false} PortalOriginsStep(p: Portal, queries: seq<QuerySpec>, j: nat, ckan: SearchTool, soda: SearchTool)
    requires j < |queries|
    ensures PortalOrigins(p, queries[..j + 1], ckan, soda)
      == PortalOrigins(p, queries[..j], ckan, soda) + QueryOrigins(p, queries[j], ckan, soda)
  {
    assert queries[..j + 1][..j] == queries[..j];
  }

  /** `_execute_searches`: every query of every portal, in order. */
  method ExecuteSearches(portals: seq<Portal>, ckan: SearchTool, soda: SearchTool) returns (all: seq<Dict>)
    ensures all == TagAll(SearchOrigins(portals, ckan, soda))
  {
    all := [];
    for i := 0 to |portals|
      invariant all == TagAll(SearchOrigins(portals[..i], ckan, soda))
    {
      assert portals[..i + 1][..i] == portals[..i];
      var p := portals[i];
      var more := SearchPortal(p, ckan, soda);
      TagAllAppend(SearchOrigins(portals[..i], ckan, soda), PortalOrigins(p, p.queries, ckan, soda));
      all := all + more;
    }
    assert portals[..|portals|] == portals;
  }

  /** Every result comes from a portal of the strategy whose type is "ckan"
      or "soda", and the tag it carries (unless the hit brings its own
      "source") is that type. */
  lemma {:induction false} SearchOriginsFromSearchablePortals(portals: seq<Portal>, ckan: SearchTool, soda: SearchTool)
    ensures forall o :: o in SearchOrigins(portals, ckan, soda) ==>
      o.portal in portals && (o.portal.portalType == "ckan" || o.portal.portalType == "soda")
    decreases |portals|
  {
    if portals != [] {
      var init := portals[..|portals| - 1];
      var p := portals[|portals| - 1];
      SearchOriginsFromSearchablePortals(init, ckan, soda);
      PortalOriginsFrom(p, p.queries, ckan, soda);
      forall o | o in SearchOrigins(portals, ckan, soda)
        ensures o.portal in portals && (o.portal.portalType == "ckan" || o.portal.portalType == "soda")
      {
        if o in SearchOrigins(init, ckan, soda) {
          assert o.portal in init;
        }
      }
    }
  }

  lemma {:induction false} PortalOriginsFrom(p: Portal, queries: seq<QuerySpec>, ckan: SearchTool, soda: SearchTool)
    ensures forall o :: o in PortalOrigins(p, queries, ckan, soda) ==>
      o.portal == p && (p.portalType == "ckan" || p.portalType == "soda")
    decreases |queries|
  {
    if queries != [] {
      PortalOriginsFrom(p, queries[..|queries| - 1], ckan, soda);
    }
  }

  /** A result's "source" tag names the type of the portal it came from. */
  lemma ResultSourceIsPortalType(o: Origin)
    requires "source" !in o.hit
    ensures TagOrigin(o)["source"] == Str(o.portal.portalType)
  {
  }

  /** A portal of another type contributes nothing. */
  lemma {:induction false} OtherPortalTypesAddNothing(p: Portal, queries: seq<QuerySpec>, ckan: SearchTool, soda: SearchTool)
    requires p.portalType != "ckan" && p.portalType != "soda"
    ensures PortalOrigins(p, queries, ckan, soda) == []
    decreases |queries|
  {
    if queries != [] {
      OtherPortalTypesAddNothing(p, queries[..|queries| - 1], ckan, soda);
    }
  }

  // ---------------------------------------------------------------------
  // Ranking

  const BatchSize: nat := 20

  /** The LLM's verdict on one dataset of a batch. `variables` is `None`
      when the key is missing. */
  datatype Ranking = Ranking(index: int, score: real, reason: string, variables: Option<seq<string>>)

  /** The consecutive slices of twenty starting at `i`. */
  function BatchesFrom(datasets: seq<Dict>, i: nat): (r: seq<seq<Dict>>)
    decreases |datasets| - i
  {
    if i >= |datasets| then []
    else [datasets[i..Min(i + BatchSize, |datasets|)]] + BatchesFrom(datasets, i + BatchSize)
  }

  function Min(a: int, b: int): int {
    if a < b then a else b
  }

  function Concat(batches: seq<seq<Dict>>): seq<Dict> {
    if batches == [] then [] else batches[0] + Concat(batches[1..])
  }

  /** The batches cover the datasets exactly once, in order, and none is
      empty or larger than twenty. */
  lemma {:induction false} BatchesCover(datasets: seq<Dict>, i: nat)
    requires i <= |datasets|
    ensures Concat(BatchesFrom(datasets, i)) == datasets[i..]
    ensures forall k :: 0 <= k < |BatchesFrom(datasets, i)| ==>
      0 < |BatchesFrom(datasets, i)[k]| <= BatchSize
    decreases |datasets| - i
  {
    var bs := BatchesFrom(datasets, i);
    if i < |datasets| {
      var j := Min(i + BatchSize, |datasets|);
      if j < |datasets| {
        BatchesCover(datasets, j);
      } else {
        assert BatchesFrom(datasets, j) == [];
      }
      assert bs[1..] == BatchesFrom(datasets, j);
      assert datasets[i..] == datasets[i..j] + datasets[j..];
    }
  }

  /** The copy of the dataset a ranking points at, with its score, reason
      and variables. A negative index counts from the end of the batch. */
  function Ranked(batch: seq<Dict>, r: Ranking): (d: Dict)
    requires -|batch| <= r.index < |batch|
    ensures d.Keys == PickIndexed(batch, r.index).Keys + {"relevance_score", "relevance_reason", "variables_available"}
    ensures forall k :: (k in PickIndexed(batch, r.index) && k !in {"relevance_score", "relevance_reason", "variables_available"}
      ==> d[k] == PickIndexed(batch, r.index)[k])
    ensures d["relevance_score"] == Num(r.score)
  {
    var vars := if r.variables.Some? then Arr(Strs(r.variables.value)) else Arr([]);
    PickIndexed(batch, r.index)["relevance_score" := Num(r.score)]["relevance_reason" := Str(r.reason)]
      ["variables_available" := vars]
  }

  /** `batch[index]` with Python's negative indexing. */
  function PickIndexed(batch: seq<Dict>, index: int): Dict
    requires -|batch| <= index < |batch|
  {
    if index >= 0 then batch[index] else batch[|batch| + index]
  }

  function Strs(ss: seq<string>): (r: seq<Value>)
    ensures |r| == |ss| && forall k :: 0 <= k < |r| ==> r[k] == Str(ss[k])
  {
    if ss == [] then [] else Strs(ss[..|ss| - 1]) + [Str(ss[|ss| - 1])]
  }

  /** The merge of one batch with its rankings: a ranking whose index is
      not below the batch length contributes a copy; one whose index is
      below minus the batch length raises an IndexError. */
  function Merge(batch: seq<Dict>, rankings: seq<Ranking>): Result<seq<Dict>, string> {
    if rankings == [] then Ok([])
    else
      var r := rankings[|rankings| - 1];
      match Merge(batch, rankings[..|rankings| - 1])
      case Err(e) => Err(e)
      case Ok(m) =>
        if r.index < |batch| then
          if r.index < -|batch| then Err("list index out of range") else Ok(m + [Ranked(batch, r)])
        else Ok(m)
  }

  /** The rankings that contribute to the merge. */
  function Accepted(batch: seq<Dict>, rankings: seq<Ranking>): nat {
    if rankings == [] then 0
    else Accepted(batch, rankings[..|rankings| - 1]) + (if rankings[|rankings| - 1].index < |batch| then 1 else 0)
  }

  /** The merge fails exactly when some index is below minus the batch
      length; otherwise it has one entry per ranking whose index is below
      the batch length, each scored by its ranking. */
  lemma {:induction false} MergeProperties(batch: seq<Dict>, rankings: seq<Ranking>)
    ensures Merge(batch, rankings).Err? <==> exists j :: 0 <= j < |rankings| && rankings[j].index < -|batch|
    ensures Merge(batch, rankings).Ok? ==> |Merge(batch, rankings).value| == Accepted(batch, rankings)
    ensures Merge(batch, rankings).Ok? ==> forall k :: 0 <= k < |Merge(batch, rankings).value| ==>
      "relevance_score" in Merge(batch, rankings).value[k]
    decreases |rankings|
  {
    if rankings != [] {
      var init := rankings[..|rankings| - 1];
      MergeProperties(batch, init);
      if exists j :: 0 <= j < |init| && init[j].index < -|batch| {
        var j :| 0 <= j < |init| && init[j].index < -|batch|;
        assert rankings[j] == init[j];
      }
      if exists j :: 0 <= j < |rankings| && rankings[j].index < -|batch| {
        var j :| 0 <= j < |rankings| && rankings[j].index < -|batch|;
        if j < |init| {
          assert init[j] == rankings[j];
        }
      }
    }
  }

  /** The batch of twenty (or fewer, at the end) starting at `i`. */
  function BatchAt(datasets: seq<Dict>, i: nat): (batch: seq<Dict>)
    requires i < |datasets|
    ensures 0 < |batch| <= BatchSize && batch == datasets[i..Min(i + BatchSize, |datasets|)]
  {
    datasets[i..Min(i + BatchSize, |datasets|)]
  }

  /** The merged entries of one batch: the LLM's reply for the batch
      (`rank`), without its code fence, parsed (`parse`), then merged. */
  function BatchMerge(batch: seq<Dict>, rank: seq<Dict> -> string,
                      parse: string -> Result<seq<Ranking>, string>): Result<seq<Dict>, string>
  {
    match parse(CodeFence.StripCodeFence(rank(batch), "json"))
    case Err(e) => Err(e)
    case Ok(rankings) => Merge(batch, rankings)
  }

  /** The merges of the batches from `i` on, concatenated; the first error
      ends the ranking. */
  function MergeFrom(datasets: seq<Dict>, i: nat, rank: seq<Dict> -> string,
                     parse: string -> Result<seq<Ranking>, string>): Result<seq<Dict>, string>
    decreases |datasets| - i
  {
    if i >= |datasets| then Ok([])
    else
      match BatchMerge(BatchAt(datasets, i), rank, parse)
      case Err(e) => Err(e)
      case Ok(m) => Prepend(m, MergeFrom(datasets, i + BatchSize, rank, parse))
  }

  /** The merges of `batches`, concatenated in order; the first error ends
      the ranking. */
  function MergeAll(batches: seq<seq<Dict>>, rank: seq<Dict> -> string,
                    parse: string -> Result<seq<Ranking>, string>): Result<seq<Dict>, string>
  {
    if batches == [] then Ok([])
    else
      match BatchMerge(batches[0], rank, parse)
      case Err(e) => Err(e)
      case Ok(m) => Prepend(m, MergeAll(batches[1..], rank, parse))
  }

  /** The ranking loop merges exactly the batches `BatchesFrom` cuts, one
      LLM call each, in order. */
  lemma {:induction false} MergeFromBatches(datasets: seq<Dict>, i: nat, rank: seq<Dict> -> string,
                                           parse: string -> Result<seq<Ranking>, string>)
    ensures MergeFrom(datasets, i, rank, parse) == MergeAll(BatchesFrom(datasets, i), rank, parse)
    decreases |datasets| - i
  {
    if i < |datasets| {
      var bs := BatchesFrom(datasets, i);
      MergeFromBatches(datasets, i + BatchSize, rank, parse);
      assert bs[0] == BatchAt(datasets, i);
      assert bs[1..] == BatchesFrom(datasets, i + BatchSize);
    }
  }

  /** The relevance score a dataset is sorted by (0 when missing). */
  function ScoreOf(d: Dict): real {
    if "relevance_score" in d && d["relevance_score"].Num? then d["relevance_score"].n else 0.0
  }

  /** What `_rank_datasets` returns: nothing for no datasets; otherwise the
      merged entries of all batches sorted by score, highest first, ties
      kept in merge order. */
  function RankedDatasets(datasets: seq<Dict>, rank: seq<Dict> -> string,
                          parse: string -> Result<seq<Ranking>, string>): Result<seq<Dict>, string>
  {
    if datasets == [] then Ok([])
    else
      match MergeFrom(datasets, 0, rank, parse)
      case Err(e) => Err(e)
      case Ok(merged) => Ok(Sorting.SortDesc(merged, ScoreOf, Sorting.RealGreater))
  }

  /** `acc` followed by the outcome of the remaining batches. */
  function Prepend(acc: seq<Dict>, rest: Result<seq<Dict>, string>): Result<seq<Dict>, string> {
    match rest
    case Err(e) => Err(e)
    case Ok(m) => Ok(acc + m)
  }

  method MergeBatch(batch: seq<Dict>, rankings: seq<Ranking>) returns (r: Result<seq<Dict>, string>)
    ensures r == Merge(batch, rankings)
  {
    var merged: seq<Dict> := [];
    for j := 0 to |rankings|
      invariant Merge(batch, rankings[..j]) == Ok(merged)
    {
      assert rankings[..j + 1][..j] == rankings[..j];
      var ranking := rankings[j];
      var idx := ranking.index;
      if idx < |batch| {
        if idx < -|batch| {
          assert Merge(batch, rankings[..j + 1]) == Err("list index out of range");
          MergeErrorPersists(batch, rankings, j + 1);
          assert rankings[..|rankings|] == rankings;
          return Err("list index out of range");
        }
        merged := merged + [Ranked(batch, ranking)];
      }
    }
    assert rankings[..|rankings|] == rankings;
    r := Ok(merged);
  }

  /** Once the merge of a prefix fails, the merge of the whole fails. */
  lemma {:induction false} MergeErrorPersists(batch: seq<Dict>, rankings: seq<Ranking>, j: nat)
    requires j <= |rankings|
    requires Merge(batch, rankings[..j]).Err?
    ensures Merge(batch, rankings) == Merge(batch, rankings[..j])
    decreases |rankings| - j
  {
    if j < |rankings| {
      assert rankings[..j + 1][..j] == rankings[..j];
      MergeErrorPersists(batch, rankings, j + 1);
    } else {
      assert rankings[..j] == rankings;
    }
  }

  /** One batch of `_rank_datasets`: ask, strip the fence, parse, merge. */
  method RankBatch(batch: seq<Dict>, rank: seq<Dict> -> string,
                   parse: string -> Result<seq<Ranking>, string>) returns (r: Result<seq<Dict>, string>)
    ensures r == BatchMerge(batch, rank, parse)
  {
    var responseText := rank(batch);
    var parsed := parse(CodeFence.StripCodeFence(responseText, "json"));
    if parsed.Err? {
      return Err(parsed.error);
    }
    r := MergeBatch(batch, parsed.value);
  }

  /** `_rank_datasets`. */
  method RankDatasets(datasets: seq<Dict>, rank: seq<Dict> -> string,
                      parse: string -> Result<seq<Ranking>, string>) returns (r: Result<seq<Dict>, string>)
    ensures r == RankedDatasets(datasets, rank, parse)
  {
    if |datasets| == 0 {
      return Ok([]);
    }
    var merged := RankAllBatches(datasets, rank, parse);
    if merged.Err? {
      return Err(merged.error);
    }
    r := Ok(Sorting.SortDesc(merged.value, ScoreOf, Sorting.RealGreater));
  }

  /** The batch loop of `_rank_datasets`: each batch ranked and merged in
      turn, stopping at the first failure. */
  method RankAllBatches(datasets: seq<Dict>, rank: seq<Dict> -> string,
                        parse: string -> Result<seq<Ranking>, string>) returns (r: Result<seq<Dict>, string>)
    ensures r == MergeFrom(datasets, 0, rank, parse)
  {
    var rankedBatches: seq<Dict> := [];
    var i := 0;
    PrependAssoc([], [], MergeFrom(datasets, 0, rank, parse));
    while i < |datasets|
      invariant 0 <= i
      invariant MergeFrom(datasets, 0, rank, parse) == Prepend(rankedBatches, MergeFrom(datasets, i, rank, parse))
      decreases |datasets| - i
    {
      var merged := RankBatch(BatchAt(datasets, i), rank, parse);
      if merged.Err? {
        return Err(merged.error);
      }
      PrependAssoc(rankedBatches, merged.value, MergeFrom(datasets, i + BatchSize, rank, parse));
      rankedBatches := rankedBatches + merged.value;
      i := i + BatchSize;
    }
    assert MergeFrom(datasets, i, rank, parse) == Ok([]);
    assert rankedBatches + [] == rankedBatches;
    r := Ok(rankedBatches);
  }

  lemma {:induction false} PrependAssoc(a: seq<Dict>, b: seq<Dict>, rest: Result<seq<Dict>, string>)
    ensures Prepend(a, Prepend(b, rest)) == Prepend(a + b, rest)
    ensures Prepend([], rest) == rest
  {
    if rest.Ok? {
      assert [] + rest.value == rest.value;
      assert a + (b + rest.value) == (a + b) + rest.value;
    }
  }

  /** The ranked datasets are sorted by score, highest first; they are the
      merged entries reordered; and entries with equal scores keep their
      merge order (the sort is stable). */
  lemma {:induction false} RankedSorted(datasets: seq<Dict>, rank: seq<Dict> -> string,
                     parse: string -> Result<seq<Ranking>, string>, score: real)
    requires datasets != [] && MergeFrom(datasets, 0, rank, parse).Ok?
    ensures var ranked := RankedDatasets(datasets, rank, parse).value;
      var merged := MergeFrom(datasets, 0, rank, parse).value;
      && (forall i, j :: 0 <= i < j < |ranked| ==> ScoreOf(ranked[i]) >= ScoreOf(ranked[j]))
      && multiset(ranked) == multiset(merged)
      && Sorting.WithKey(ranked, ScoreOf, score) == Sorting.WithKey(merged, ScoreOf, score)
  {
    var merged := MergeFrom(datasets, 0, rank, parse).value;
    Sorting.RealGreaterStrictTotal();
    Sorting.SortDescSorted(merged, ScoreOf, Sorting.RealGreater);
    Sorting.SortDescStable(merged, ScoreOf, Sorting.RealGreater, score);
  }

  /** An index of -1 passes the `index < len(batch)` check and scores the
      last dataset of the batch. */
  lemma {:induction false} NegativeIndexScoresLast(batch: seq<Dict>, score: real, reason: string)
    requires batch != []
    ensures var r := Ranking(-1, score, reason, None);
      Merge(batch, [r]) == Ok([Ranked(batch, r)])
      && PickIndexed(batch, -1) == batch[|batch| - 1]
  {
    var r := Ranking(-1, score, reason, None);
    assert [r][..0] == [];
    assert Merge(batch, []) == Ok([]);
    assert [] + [Ranked(batch, r)] == [Ranked(batch, r)];
  }

  // ---------------------------------------------------------------------
  // Enrichment

  /** A metadata tool: given the base URL and resource id, its answer, or
      the exception it raised. */
  type InfoTool = (Value, Value) -> Result<Dict, string>

  /** `dataset.get('id') or dataset.get('resource_id')`. */
  function ResourceId(d: Dict): Value {
    if Truthy(Get(d, "id")) then Get(d, "id") else Get(d, "resource_id")
  }

  /** The dataset after enrichment: unchanged without a resource id, for
      another source, or when the tool raised; otherwise with the access
      details the tool reports. */
  function Enriched(d: Dict, ckanInfo: InfoTool, sodaMeta: InfoTool): Dict {
    var rid := ResourceId(d);
    if !Truthy(rid) then d
    else if Get(d, "source") == Str("ckan") then
      match ckanInfo(Get(d, "base_url"), rid)
      case Err(_) => d
      case Ok(info) =>
        d["access_method" := GetOr(info, "recommended_access_method", Str("download"))]
         ["format" := Get(info, "format")]["size" := Get(info, "size")]
         ["last_modified" := Get(info, "last_modified")]
    else if Get(d, "source") == Str("soda") then
      match sodaMeta(Get(d, "base_url"), rid)
      case Err(_) => d
      case Ok(meta) =>
        d["access_method" := Str("soda")]["columns" := GetOr(meta, "columns", Arr([]))]
         ["row_count" := Get(meta, "row_count")]
    else d
  }

  function EnrichAll(datasets: seq<Dict>, ckanInfo: InfoTool, sodaMeta: InfoTool): (r: seq<Dict>)
    ensures |r| == |datasets|
    ensures forall k :: 0 <= k < |r| ==> r[k] == Enriched(datasets[k], ckanInfo, sodaMeta)
  {
    if datasets == [] then []
    else EnrichAll(datasets[..|datasets| - 1], ckanInfo, sodaMeta) + [Enriched(datasets[|datasets| - 1], ckanInfo, sodaMeta)]
  }

  /** Enrichment only adds or overwrites members; it never drops one, and a
      dataset without a resource id comes back unchanged. */
  lemma EnrichedKeepsMembers(d: Dict, ckanInfo: InfoTool, sodaMeta: InfoTool)
    ensures d.Keys <= Enriched(d, ckanInfo, sodaMeta).Keys
    ensures forall k :: (k in d && k !in {"access_method", "format", "size", "last_modified", "columns", "row_count"}
      ==> Enriched(d, ckanInfo, sodaMeta)[k] == d[k])
    ensures !Truthy(ResourceId(d)) ==> Enriched(d, ckanInfo, sodaMeta) == d
  {
  }

  /** `_enrich_dataset_info`: one entry per input, in order. */
  method EnrichDatasetInfo(datasets: seq<Dict>, ckanInfo: InfoTool, sodaMeta: InfoTool) returns (enriched: seq<Dict>)
    ensures enriched == EnrichAll(datasets, ckanInfo, sodaMeta)
  {
    enriched := [];
    for i := 0 to |datasets|
      invariant enriched == EnrichAll(datasets[..i], ckanInfo, sodaMeta)
    {
      assert datasets[..i + 1][..i] == datasets[..i];
      var dataset := datasets[i];
      var source := Get(dataset, "source");
      var baseUrl := Get(dataset, "base_url");
      var resourceId := ResourceId(dataset);
      if !Truthy(resourceId) {
        enriched := enriched + [dataset];
        continue;
      }
      if source == Str("ckan") {
        var outcome := ckanInfo(baseUrl, resourceId);
        if outcome.Ok? {
          var info := outcome.value;
          dataset := dataset["access_method" := GetOr(info, "recommended_access_method", Str("download"))];
          dataset := dataset["format" := Get(info, "format")];
          dataset := dataset["size" := Get(info, "size")];
          dataset := dataset["last_modified" := Get(info, "last_modified")];
        }
      } else if source == Str("soda") {
        var outcome := sodaMeta(baseUrl, resourceId);
        if outcome.Ok? {
          var meta := outcome.value;
          dataset := dataset["access_method" := Str("soda")];
          dataset := dataset["columns" := GetOr(meta, "columns", Arr([]))];
          dataset := dataset["row_count" := Get(meta, "row_count")];
        }
      }
      enriched := enriched + [dataset];
    }
    assert datasets[..|datasets|] == datasets;
  }

  // ---------------------------------------------------------------------
  // Discovery

  datatype Discovery = Discovery(datasets: seq<Dict>, totalFound: nat, totalReturned: nat)

  /** `discover`, from the search strategy on: search, rank, keep the first
      `maxDatasets` (Python slice, so a negative bound drops from the end),
      enrich. A ranking failure is the failure of the whole discovery. */
  method Discover(portals: seq<Portal>, maxDatasets: int, ckan: SearchTool, soda: SearchTool,
                  rank: seq<Dict> -> string, parse: string -> Result<seq<Ranking>, string>,
                  ckanInfo: InfoTool, sodaMeta: InfoTool) returns (r: Result<Discovery, string>)
    ensures var found := TagAll(SearchOrigins(portals, ckan, soda));
      r.Err? <==> RankedDatasets(found, rank, parse).Err?
    ensures r.Ok? ==>
      var found := TagAll(SearchOrigins(portals, ckan, soda));
      var top := PySliceTo(RankedDatasets(found, rank, parse).value, maxDatasets);
      && r.value.datasets == EnrichAll(top, ckanInfo, sodaMeta)
      && r.value.totalFound == |found|
      && r.value.totalReturned == |r.value.datasets|
      && (maxDatasets >= 0 ==> r.value.totalReturned <= maxDatasets)
  {
    var allResults := ExecuteSearches(portals, ckan, soda);
    var ranked := RankDatasets(allResults, rank, parse);
    if ranked.Err? {
      return Err(ranked.error);
    }
    var top := PySliceTo(ranked.value, maxDatasets);
    var enriched := EnrichDatasetInfo(top, ckanInfo, sodaMeta);
    r := Ok(Discovery(enriched, |allResults|, |enriched|));
  }
}
