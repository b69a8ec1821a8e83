/** The rule-based part of the smart data selector: normalisation of
    medical terms, the NHANES variable dictionary lookup, the
    covered/missing split of the required variables, the weighted source
    score, the ranking of NHANES, SEER and PhysioNet, the choice of at most
    two sources, the NHANES filter and the synthetic-data thresholds. */
module SmartSelector {
  import opened Common
  import Sorting

  datatype DataSource = Nhanes | Seer | Physionet | UserUpload

  datatype SourceRanking = SourceRanking(
    source: DataSource,
    score: real,
    variableCoverage: real,
    schemaFit: real,
    licenseFit: real,
    recency: real,
    estimatedRows: int,
    requiredVariables: seq<string>,
    availableVariables: seq<string>,
    missingVariables: seq<string>)

  /** The fields of a parsed research query the ranking reads. */
  datatype QueryParsing = QueryParsing(
    outcomes: seq<string>,
    requiredVariables: seq<string>,
    researchArea: Option<string>)

  /** `ResearchConstraints`: `None` and an empty list are both falsy. */
  datatype ResearchConstraints = ResearchConstraints(
    ageRange: Option<seq<int>>,
    sex: Option<seq<string>>)

  // ---------------------------------------------------------------------
  // Term normalisation

  const TermMapping: map<string, string> := map[
    "c-reactive protein" := "crp",
    "c reactive protein" := "crp",
    "body mass index" := "bmi",
    "blood pressure" := "systolic_bp",
    "systolic blood pressure" := "systolic_bp",
    "diastolic blood pressure" := "diastolic_bp",
    "cardiovascular" := "cardiovascular_events",
    "heart disease" := "heart_disease",
    "diabetes" := "diabetes",
    "gender" := "sex"]

  /** The mapped name of the stripped, lower-cased term, or that term with
      its spaces turned into underscores. */
  function NormalizeTerm(term: string): string {
    MapCleanTerm(Lower(Strip(term)))
  }

  function MapCleanTerm(clean: string): string {
    if clean in TermMapping then TermMapping[clean] else ReplaceAll(clean, " ", "_")
  }

  /** A normalised name: lower case, no space, no surrounding whitespace. */
  predicate IsNormalized(s: string) {
    && (s == [] || (!IsSpace(s[0]) && !IsSpace(s[|s| - 1])))
    && (forall i :: 0 <= i < |s| ==> s[i] != ' ' && LowerChar(s[i]) == s[i])
  }

  /** Each term normalised, in order. */
  function NormalizedTerms(terms: seq<string>): (r: seq<string>)
    ensures |r| == |terms|
  {
    if terms == [] then [] else NormalizedTerms(terms[..|terms| - 1]) + [NormalizeTerm(terms[|terms| - 1])]
  }

  /** The `k`-th normalised term is the normalisation of the `k`-th term. */
  lemma {:induction false} NormalizedTermAt(terms: seq<string>, k: nat)
    requires k < |terms|
    ensures NormalizedTerms(terms)[k] == NormalizeTerm(terms[k])
    decreases |terms|
  {
    if k < |terms| - 1 {
      NormalizedTermAt(terms[..|terms| - 1], k);
    }
  }

  /** Normalising one more term appends its normalisation. */
  lemma {:induction false} NormalizedTermsSnoc(terms: seq<string>, i: nat)
    requires i < |terms|
    ensures NormalizedTerms(terms[..i + 1]) == NormalizedTerms(terms[..i]) + [NormalizeTerm(terms[i])]
  {
    assert terms[..i + 1][..i] == terms[..i];
  }

  method NormalizeTerms(terms: seq<string>) returns (normalized: seq<string>)
    ensures normalized == NormalizedTerms(terms)
  {
    normalized := [];
    for i := 0 to |terms|
      invariant normalized == NormalizedTerms(terms[..i])
    {
      var termClean := Lower(Strip(terms[i]));
      NormalizedTermsSnoc(terms, i);
      normalized := normalized + [MapCleanTerm(termClean)];
    }
    assert terms[..|terms|] == terms;
  }

  lemma LowerCharIdempotent(c: char)
    ensures LowerChar(LowerChar(c)) == LowerChar(c)
    ensures IsSpace(LowerChar(c)) <==> IsSpace(c)
  {
  }

  /** The names the mapping yields. */
  const MappedNames: seq<string> :=
    ["crp", "bmi", "systolic_bp", "diastolic_bp", "cardiovascular_events", "heart_disease", "diabetes", "sex"]

  lemma MappedNamesListed()
    ensures forall k :: k in TermMapping ==> TermMapping[k] in MappedNames
  {
  }

  /** The mapped names are normalised. */
  lemma {:induction false} MappedNamesNormalized()
    ensures forall k :: k in TermMapping ==> IsNormalized(TermMapping[k])
  {
    MappedNamesListed();
    forall i | 0 <= i < |MappedNames|
      ensures IsNormalized(MappedNames[i])
    {
    }
  }

  lemma MappedKeyMapsToItself(k: string)
    requires k in TermMapping && TermMapping[k] in TermMapping
    ensures TermMapping[TermMapping[k]] == TermMapping[k]
  {
  }

  /** A key without a space has no underscore either. */
  lemma KeysWithoutSpace(r: string)
    requires r in TermMapping
    requires forall i :: 0 <= i < |r| ==> r[i] != ' '
    ensures forall i :: 0 <= i < |r| ==> r[i] != '_'
  {
  }

  /** The stripped, lower-cased term is lower case with no surrounding
      whitespace. */
  lemma {:induction false} CleanTerm(term: string)
    ensures var clean := Lower(Strip(term));
      && (clean == [] || (!IsSpace(clean[0]) && !IsSpace(clean[|clean| - 1])))
      && (forall i :: 0 <= i < |clean| ==> LowerChar(clean[i]) == clean[i])
  {
    var stripped := Strip(term);
    var clean := Lower(stripped);
    forall i | 0 <= i < |clean| ensures LowerChar(clean[i]) == clean[i] {
      LowerCharIdempotent(stripped[i]);
    }
    if clean != [] {
      LowerCharIdempotent(stripped[0]);
      LowerCharIdempotent(stripped[|stripped| - 1]);
    }
  }

  lemma {:induction false} UnderscoredNormalized(clean: string)
    requires clean == [] || (!IsSpace(clean[0]) && !IsSpace(clean[|clean| - 1]))
    requires forall i :: 0 <= i < |clean| ==> LowerChar(clean[i]) == clean[i]
    ensures IsNormalized(ReplaceAll(clean, " ", "_"))
  {
    ReplaceCharElementwise(clean, ' ', '_');
  }

  /** Every normalised term is lower case, has no space and no surrounding
      whitespace. */
  lemma {:induction false} NormalizeTermNormalized(term: string)
    ensures IsNormalized(NormalizeTerm(term))
  {
    var clean := Lower(Strip(term));
    if clean in TermMapping {
      MappedNamesNormalized();
    } else {
      CleanTerm(term);
      UnderscoredNormalized(clean);
    }
  }

  /** A lower-case string is its own lower-casing. */
  lemma LowerFixed(s: string)
    requires forall i :: 0 <= i < |s| ==> LowerChar(s[i]) == s[i]
    ensures Lower(s) == s
  {
    assert forall i :: 0 <= i < |s| ==> Lower(s)[i] == s[i];
  }

  /** A string without a space has none to replace. */
  lemma UnderscoredFixed(s: string)
    requires forall i :: 0 <= i < |s| ==> s[i] != ' '
    ensures ReplaceAll(s, " ", "_") == s
  {
    ReplaceCharElementwise(s, ' ', '_');
  }

  /** A key obtained by turning spaces into underscores had no space. */
  lemma {:induction false} UnderscoredKeyIsClean(clean: string)
    requires ReplaceAll(clean, " ", "_") in TermMapping
    ensures ReplaceAll(clean, " ", "_") == clean
  {
    var r := ReplaceAll(clean, " ", "_");
    ReplaceCharElementwise(clean, ' ', '_');
    KeysWithoutSpace(r);
  }

  /** Normalising twice changes nothing. */
  lemma {:induction false} NormalizeTermIdempotent(term: string)
    ensures NormalizeTerm(NormalizeTerm(term)) == NormalizeTerm(term)
  {
    var r := NormalizeTerm(term);
    NormalizeTermNormalized(term);
    NormalizeOfNormalized(r);
    NotRemapped(Lower(Strip(term)));
  }

  /** A normalised term that is a key of the mapping maps to itself. */
  lemma {:induction false} NotRemapped(clean: string)
    ensures var r := MapCleanTerm(clean); r in TermMapping ==> TermMapping[r] == r
  {
    var r := MapCleanTerm(clean);
    if r in TermMapping {
      if clean in TermMapping {
        MappedKeyMapsToItself(clean);
      } else {
        UnderscoredKeyIsClean(clean);
        assert false;
      }
    }
  }

  /** A normalised string normalises to its mapped name when it is a key of
      the mapping, and to itself otherwise. */
  lemma {:induction false} NormalizeOfNormalized(r: string)
    requires IsNormalized(r)
    ensures NormalizeTerm(r) == if r in TermMapping then TermMapping[r] else r
  {
    StripUnchanged(r);
    LowerFixed(r);
    UnderscoredFixed(r);
    NormalizeClean(r);
    MapCleanFixed(r);
  }

  lemma NormalizeClean(r: string)
    requires Strip(r) == r && Lower(r) == r
    ensures NormalizeTerm(r) == MapCleanTerm(r)
  {
  }

  lemma MapCleanFixed(r: string)
    requires ReplaceAll(r, " ", "_") == r
    ensures MapCleanTerm(r) == if r in TermMapping then TermMapping[r] else r
  {
  }

  // ---------------------------------------------------------------------
  // The NHANES variable dictionary

  /** One variable of a dictionary category; `code` is `nhanes_code`,
      which may be absent. */
  datatype VariableEntry = VariableEntry(
    name: string,
    code: Option<string>,
    aliases: seq<string>,
    labelText: string)

  /** The variables of all categories, in dictionary order. An empty or
      missing dictionary has no categories. */
  function Flatten(categories: seq<seq<VariableEntry>>): seq<VariableEntry> {
    if categories == [] then [] else categories[0] + Flatten(categories[1..])
  }

  lemma {:induction false} FlattenAppend(a: seq<seq<VariableEntry>>, b: seq<seq<VariableEntry>>)
    ensures Flatten(a + b) == Flatten(a) + Flatten(b)
    decreases |a|
  {
    if a == [] {
      assert a + b == b;
    } else {
      FlattenAppend(a[1..], b);
      assert (a + b)[1..] == a[1..] + b;
    }
  }

  /** The name or an alias equals the term case-insensitively, or the
      lower-cased label contains the lower-cased term with '_' read as ' '. */
  predicate MatchesTerm(e: VariableEntry, term: string) {
    || Lower(e.name) == Lower(term)
    || (exists a :: a in e.aliases && Lower(a) == Lower(term))
    || Contains(Lower(e.labelText), ReplaceAll(Lower(term), "_", " "))
  }

  /** The index of the first entry matching the term, or -1. */
  function FirstMatch(entries: seq<VariableEntry>, term: string): (k: int)
    ensures -1 <= k < |entries|
    ensures k == -1 <==> forall m :: 0 <= m < |entries| ==> !MatchesTerm(entries[m], term)
    ensures k >= 0 ==> MatchesTerm(entries[k], term)
    ensures forall m :: 0 <= m < k ==> !MatchesTerm(entries[m], term)
  {
    if entries == [] then -1
    else if MatchesTerm(entries[0], term) then 0
    else
      var k := FirstMatch(entries[1..], term);
      if k == -1 then -1 else k + 1
  }

  /** The code of the first matching entry (itself possibly absent). */
  function LookupCode(entries: seq<VariableEntry>, term: string): Option<string> {
    var k := FirstMatch(entries, term);
    if k == -1 then None else entries[k].code
  }

  /** `_find_nhanes_variable`: the categories in order, the entries of each
      in order, the first match wins. */
  method FindNhanesVariable(categories: seq<seq<VariableEntry>>, term: string) returns (code: Option<string>)
    ensures code == LookupCode(Flatten(categories), term)
  {
    var searchLower := ReplaceAll(Lower(term), "_", " ");
    var i := 0;
    while i < |categories|
      invariant 0 <= i <= |categories|
      invariant NoMatch(Flatten(categories[..i]), term)
    {
      var category := categories[i];
      var j := FindInCategory(category, term, searchLower);
      if j >= 0 {
        FoundInCategory(categories, i, j, term);
        return category[j].code;
      }
      NotFoundInCategory(categories, i, term);
      i := i + 1;
    }
    assert categories[..i] == categories;
    code := None;
  }

  /** No entry of the list matches the term. */
  predicate NoMatch(entries: seq<VariableEntry>, term: string) {
    forall m :: 0 <= m < |entries| ==> !MatchesTerm(entries[m], term)
  }

  /** A match in category `i` after none in the earlier ones is the first
      match of the whole dictionary. */
  lemma FoundInCategory(categories: seq<seq<VariableEntry>>, i: nat, j: int, term: string)
    requires i < |categories| && NoMatch(Flatten(categories[..i]), term)
    requires 0 <= j && j == FirstMatch(categories[i], term)
    ensures LookupCode(Flatten(categories), term) == categories[i][j].code
  {
    FlattenAround(categories, i);
    FirstMatchAfter(Flatten(categories[..i]), categories[i], Flatten(categories[i + 1..]), term, j);
  }

  /** The entries of a dictionary are those before category `i`, then its
      own, then those after it. */
  lemma FlattenAround(categories: seq<seq<VariableEntry>>, i: nat)
    requires i < |categories|
    ensures Flatten(categories) == Flatten(categories[..i]) + categories[i] + Flatten(categories[i + 1..])
  {
    var front, back := categories[..i + 1], categories[i + 1..];
    assert front + back == categories;
    FlattenAppend(front, back);
    FlattenStep(categories, i);
  }

  /** A category without a match extends the prefix without one. */
  lemma NotFoundInCategory(categories: seq<seq<VariableEntry>>, i: nat, term: string)
    requires i < |categories| && NoMatch(Flatten(categories[..i]), term)
    requires FirstMatch(categories[i], term) == -1
    ensures NoMatch(Flatten(categories[..i + 1]), term)
  {
    FlattenStep(categories, i);
    var done := Flatten(categories[..i]);
    var all := done + categories[i];
    forall m | 0 <= m < |all| ensures !MatchesTerm(all[m], term) {
      if m < |done| {
        assert all[m] == done[m];
      } else {
        assert all[m] == categories[i][m - |done|];
      }
    }
  }

  /** The inner loop of `_find_nhanes_variable`: the first entry of one
      category that matches, or -1. */
  method FindInCategory(category: seq<VariableEntry>, term: string, searchLower: string) returns (j: int)
    requires searchLower == ReplaceAll(Lower(term), "_", " ")
    ensures j == FirstMatch(category, term)
  {
    j := 0;
    while j < |category|
      invariant 0 <= j <= |category|
      invariant forall m :: 0 <= m < j ==> !MatchesTerm(category[m], term)
    {
      var entry := category[j];
      if Lower(entry.name) == Lower(term)
        || (exists a :: a in entry.aliases && Lower(a) == Lower(term))
        || Contains(Lower(entry.labelText), searchLower)
      {
        return;
      }
      j := j + 1;
    }
    j := -1;
  }

  /** After entries none of which match, the first match of a category is
      the first match of the whole list. */
  lemma FirstMatchAfter(done: seq<VariableEntry>, category: seq<VariableEntry>, rest: seq<VariableEntry>,
                        term: string, j: int)
    requires NoMatch(done, term)
    requires 0 <= j && j == FirstMatch(category, term)
    ensures FirstMatch(done + category + rest, term) == |done| + j
    ensures (done + category + rest)[|done| + j] == category[j]
  {
    var all := done + category + rest;
    assert all[|done| + j] == category[j];
    forall m | 0 <= m < |done| + j ensures !MatchesTerm(all[m], term) {
      if m < |done| {
        assert all[m] == done[m];
      } else {
        assert all[m] == category[m - |done|];
      }
    }
  }

  /** `var_data.get("nhanes_code", "")` for every variable, in order. */
  function RawCodes(entries: seq<VariableEntry>): (r: seq<Option<string>>)
    ensures |r| == |entries|
    ensures forall k :: 0 <= k < |r| ==> r[k] == entries[k].code
  {
    if entries == [] then [] else RawCodes(entries[..|entries| - 1]) + [entries[|entries| - 1].code]
  }

  /** `[var for var in variables if var]`: the present, non-empty codes. */
  function PresentCodes(raw: seq<Option<string>>): (r: seq<string>)
    ensures |r| <= |raw|
    ensures forall v :: v in r <==> v != "" && Some(v) in raw
  {
    if raw == [] then []
    else
      var rest := PresentCodes(raw[..|raw| - 1]);
      var last := raw[|raw| - 1];
      assert raw == raw[..|raw| - 1] + [last];
      if last.Some? && last.value != "" then rest + [last.value] else rest
  }

  method GetNhanesVariables(categories: seq<seq<VariableEntry>>) returns (variables: seq<string>)
    ensures variables == PresentCodes(RawCodes(Flatten(categories)))
  {
    var raw: seq<Option<string>> := [];
    var i := 0;
    while i < |categories|
      invariant 0 <= i <= |categories|
      invariant raw == RawCodes(Flatten(categories[..i]))
    {
      raw := AppendCodes(raw, categories[i]);
      RawCodesConcat(Flatten(categories[..i]), categories[i]);
      FlattenStep(categories, i);
      i := i + 1;
    }
    assert categories[..i] == categories;
    variables := PresentCodes(raw);
  }

  /** The inner loop of `get_nhanes_variables`: one category's codes, in order. */
  method AppendCodes(raw: seq<Option<string>>, category: seq<VariableEntry>) returns (r: seq<Option<string>>)
    ensures r == raw + RawCodes(category)
  {
    r := raw;
    var j := 0;
    while j < |category|
      invariant 0 <= j <= |category|
      invariant r == raw + RawCodes(category[..j])
    {
      assert category[..j + 1] == category[..j] + [category[j]];
      RawCodesAppend(category[..j], category[j]);
      AssocAppend(raw, RawCodes(category[..j]), [category[j].code]);
      r := r + [category[j].code];
      j := j + 1;
    }
    assert category[..j] == category;
  }

  lemma RawCodesConcat(a: seq<VariableEntry>, b: seq<VariableEntry>)
    ensures RawCodes(a + b) == RawCodes(a) + RawCodes(b)
  {
    var l, r := RawCodes(a + b), RawCodes(a) + RawCodes(b);
    forall k | 0 <= k < |l|
      ensures l[k] == r[k]
    {
      if k < |a| {
        assert (a + b)[k] == a[k];
      } else {
        assert (a + b)[k] == b[k - |a|];
      }
    }
  }

  lemma {:induction false} RawCodesAppend(entries: seq<VariableEntry>, e: VariableEntry)
    ensures RawCodes(entries + [e]) == RawCodes(entries) + [e.code]
  {
    assert (entries + [e])[..|entries|] == entries;
  }

  lemma {:induction false} FlattenStep(categories: seq<seq<VariableEntry>>, i: nat)
    requires i < |categories|
    ensures Flatten(categories[..i + 1]) == Flatten(categories[..i]) + categories[i]
  {
    FlattenAppend(categories[..i], [categories[i]]);
    assert categories[..i + 1] == categories[..i] + [categories[i]];
    assert Flatten([categories[i]]) == categories[i];
  }

  /** A code the lookup finds (and that is not empty) is among the listed
      variables. */
  lemma {:induction false} FoundCodeIsListed(categories: seq<seq<VariableEntry>>, term: string)
    requires LookupCode(Flatten(categories), term).Some?
    requires LookupCode(Flatten(categories), term).value != ""
    ensures LookupCode(Flatten(categories), term).value in PresentCodes(RawCodes(Flatten(categories)))
  {
    var all := Flatten(categories);
    var k := FirstMatch(all, term);
    assert RawCodes(all)[k] == all[k].code;
  }

  /** An empty dictionary finds nothing. */
  lemma EmptyDictionaryFindsNothing(term: string)
    ensures LookupCode(Flatten([]), term) == None
  {
  }

  // ---------------------------------------------------------------------
  // Coverage and score

  /** `if self._find_nhanes_variable(var)`: found with a non-empty code. */
  predicate IsCovered(categories: seq<seq<VariableEntry>>, v: string) {
    var c := LookupCode(Flatten(categories), v);
    c.Some? && c.value != ""
  }

  function Covered(categories: seq<seq<VariableEntry>>, required: seq<string>): seq<string> {
    if required == [] then []
    else (if IsCovered(categories, required[0]) then [required[0]] else []) + Covered(categories, required[1..])
  }

  function Missing(categories: seq<seq<VariableEntry>>, required: seq<string>): seq<string> {
    if required == [] then []
    else (if IsCovered(categories, required[0]) then [] else [required[0]]) + Missing(categories, required[1..])
  }

  /** Covered and missing variables split the required ones. */
  lemma {:induction false} CoveragePartition(categories: seq<seq<VariableEntry>>, required: seq<string>)
    ensures |Covered(categories, required)| + |Missing(categories, required)| == |required|
    ensures multiset(Covered(categories, required)) + multiset(Missing(categories, required)) == multiset(required)
    ensures forall v :: v in Covered(categories, required) ==> v in required && IsCovered(categories, v)
    ensures forall v :: v in Missing(categories, required) ==> v in required && !IsCovered(categories, v)
    decreases |required|
  {
    if required != [] {
      var v, rest := required[0], required[1..];
      CoveragePartition(categories, rest);
      assert required == [v] + rest;
      if IsCovered(categories, v) {
        assert Covered(categories, required) == [v] + Covered(categories, rest);
        assert Missing(categories, required) == Missing(categories, rest);
      } else {
        assert Covered(categories, required) == Covered(categories, rest);
        assert Missing(categories, required) == [v] + Missing(categories, rest);
      }
    }
  }

  /** `len(covered) / len(required)`, or 0 when nothing is required. */
  function Coverage(categories: seq<seq<VariableEntry>>, required: seq<string>): (c: real)
    ensures 0.0 <= c <= 1.0
    ensures required != [] && Missing(categories, required) == [] ==> c == 1.0
    ensures Covered(categories, required) == [] ==> c == 0.0
  {
    CoveragePartition(categories, required);
    if required != [] then
      RatioInUnitRange(|Covered(categories, required)|, |required|);
      |Covered(categories, required)| as real / |required| as real
    else 0.0
  }

  lemma RatioInUnitRange(a: nat, b: nat)
    requires a <= b && b > 0
    ensures 0.0 <= a as real / b as real <= 1.0
    ensures a == b ==> a as real / b as real == 1.0
    ensures a == 0 ==> a as real / b as real == 0.0
  {
  }

  /** The weighted score: 0.4 coverage, 0.3 schema fit, 0.2 licence fit,
      0.1 recency. The weights sum to 1, so the score lies between the
      smallest and the largest component. */
  function Score(coverage: real, schemaFit: real, licenseFit: real, recency: real): (s: real)
    ensures var lo := Min(Min(coverage, schemaFit), Min(licenseFit, recency));
            var hi := Max(Max(coverage, schemaFit), Max(licenseFit, recency));
            lo <= s <= hi
  {
    coverage * 0.4 + schemaFit * 0.3 + licenseFit * 0.2 + recency * 0.1
  }

  function Min(a: real, b: real): real { if a <= b then a else b }

  function Max(a: real, b: real): real { if a >= b then a else b }

  /** Components in [0, 1] give a score in [0, 1]. */
  lemma {:induction false} ScoreInUnitRange(coverage: real, schemaFit: real, licenseFit: real, recency: real)
    requires 0.0 <= coverage <= 1.0 && 0.0 <= schemaFit <= 1.0
    requires 0.0 <= licenseFit <= 1.0 && 0.0 <= recency <= 1.0
    ensures 0.0 <= Score(coverage, schemaFit, licenseFit, recency) <= 1.0
  {
    var s := Score(coverage, schemaFit, licenseFit, recency);
    assert Min(Min(coverage, schemaFit), Min(licenseFit, recency)) <= s;
  }

  // ---------------------------------------------------------------------
  // Ranking

  const NhanesFitAreas: seq<string> := ["cardiovascular_risk", "diabetes_research", "inflammation"]
  const CancerTerms: seq<string> := ["cancer", "tumor", "oncology", "malignancy", "carcinoma"]
  const SignalTerms: seq<string> := ["ecg", "eeg", "emg", "signal", "waveform", "physiological"]
  const PhysiologicalAreas: seq<string> := ["ecg", "eeg", "physiological"]

  /** Some text, lower-cased, contains some term. */
  predicate AnyLowerContains(texts: seq<string>, terms: seq<string>) {
    exists i, j :: 0 <= i < |texts| && 0 <= j < |terms| && Contains(Lower(texts[i]), terms[j])
  }

  /** What the sample-size estimate of `_rank_nhanes` gets: no MCP client,
      the dry run's row count (already 0 when it reported none), or an
      exception, raised by the dry run or anywhere else in the `try`. */
  datatype DryRun = NoClient | Rows(n: int) | Raised

  /** The NHANES ranking; `None` when the `try` raised (it is logged). */
  function RankNhanes(parsing: QueryParsing, categories: seq<seq<VariableEntry>>, dryRun: DryRun): (r: Option<SourceRanking>)
    ensures r.Some? <==> !dryRun.Raised?
    ensures r.Some? ==> r.value.source == Nhanes
    ensures r.Some? ==> 0.0 <= r.value.score <= 1.0
    ensures r.Some? ==> r.value.score == Score(r.value.variableCoverage, r.value.schemaFit, r.value.licenseFit, r.value.recency)
    ensures r.Some? ==> r.value.requiredVariables == parsing.requiredVariables
    ensures r.Some? ==> multiset(r.value.availableVariables) + multiset(r.value.missingVariables) == multiset(parsing.requiredVariables)
    ensures r.Some? ==> forall v :: v in r.value.availableVariables ==> IsCovered(categories, v)
    ensures r.Some? ==> forall v :: v in r.value.missingVariables ==> !IsCovered(categories, v)
    ensures r.Some? ==> (r.value.schemaFit == 0.9 <==> parsing.researchArea.Some? && parsing.researchArea.value in NhanesFitAreas)
    ensures r.Some? ==> r.value.estimatedRows == if dryRun.Rows? then dryRun.n else 10000
  {
    if dryRun.Raised? then None
    else
      var required := parsing.requiredVariables;
      CoveragePartition(categories, required);
      var coverage := Coverage(categories, required);
      var schemaFit := if parsing.researchArea.Some? && parsing.researchArea.value in NhanesFitAreas then 0.9 else 0.6;
      ScoreInUnitRange(coverage, schemaFit, 1.0, 0.8);
      Some(SourceRanking(Nhanes, Score(coverage, schemaFit, 1.0, 0.8), coverage, schemaFit, 1.0, 0.8,
        if dryRun.Rows? then dryRun.n else 10000,
        required, Covered(categories, required), Missing(categories, required)))
  }

  /** SEER is ranked only for a cancer outcome. */
  function RankSeer(parsing: QueryParsing): (r: Option<SourceRanking>)
    ensures r.Some? <==> AnyLowerContains(parsing.outcomes, CancerTerms)
    ensures r.Some? ==> r.value.source == Seer && 0.0 <= r.value.score <= 1.0
    ensures r.Some? ==> r.value.score == Score(r.value.variableCoverage, r.value.schemaFit, r.value.licenseFit, r.value.recency)
  {
    if !AnyLowerContains(parsing.outcomes, CancerTerms) then None
    else
      ScoreInUnitRange(0.7, 0.9, 1.0, 0.7);
      Some(SourceRanking(Seer, Score(0.7, 0.9, 1.0, 0.7), 0.7, 0.9, 1.0, 0.7, 50000,
        parsing.requiredVariables, ["site", "stage", "grade", "age_group", "sex", "race"], []))
  }

  /** PhysioNet is ranked only when a required variable names a signal. */
  function RankPhysionet(parsing: QueryParsing): (r: Option<SourceRanking>)
    ensures r.Some? <==> AnyLowerContains(parsing.requiredVariables, SignalTerms)
    ensures r.Some? ==> r.value.source == Physionet && 0.0 <= r.value.score <= 1.0
    ensures r.Some? ==> r.value.score == Score(r.value.variableCoverage, r.value.schemaFit, r.value.licenseFit, r.value.recency)
  {
    if !AnyLowerContains(parsing.requiredVariables, SignalTerms) then None
    else
      ScoreInUnitRange(0.6, 0.8, 0.9, 0.6);
      Some(SourceRanking(Physionet, Score(0.6, 0.8, 0.9, 0.6), 0.6, 0.8, 0.9, 0.6, 100000,
        parsing.requiredVariables, ["time", "signal", "annotation"], []))
  }

  /** The research area or some outcome mentions cancer (case-sensitive). */
  predicate SeerConsidered(parsing: QueryParsing) {
    (parsing.researchArea == Some("cancer"))
    || (exists i :: 0 <= i < |parsing.outcomes| && Contains(parsing.outcomes[i], "cancer"))
  }

  /** The research area mentions a physiological signal. */
  predicate PhysionetConsidered(area: string) {
    exists j :: 0 <= j < |PhysiologicalAreas| && Contains(area, PhysiologicalAreas[j])
  }

  function ScoreOf(r: SourceRanking): real {
    r.score
  }

  /** The rankings before sorting: NHANES, then SEER, then PhysioNet, each
      when it was produced. */
  function UnsortedRankings(parsing: QueryParsing, area: string, categories: seq<seq<VariableEntry>>, dryRun: DryRun): seq<SourceRanking> {
    var nhanes := RankNhanes(parsing, categories, dryRun);
    var seer := if SeerConsidered(parsing) then RankSeer(parsing) else None;
    var physionet := if PhysionetConsidered(area) then RankPhysionet(parsing) else None;
    (if nhanes.Some? then [nhanes.value] else [])
      + (if seer.Some? then [seer.value] else [])
      + (if physionet.Some? then [physionet.value] else [])
  }

  /** `_rank_sources`: the rankings sorted by score, highest first. A
      missing research area makes the PhysioNet test fail with a type
      error. */
  function RankSources(parsing: QueryParsing, categories: seq<seq<VariableEntry>>, dryRun: DryRun): (r: Result<seq<SourceRanking>, string>)
    ensures r.Err? <==> parsing.researchArea.None?
  {
    if parsing.researchArea.None? then Err("TypeError: argument of type 'NoneType' is not iterable")
    else
      var unsorted := UnsortedRankings(parsing, parsing.researchArea.value, categories, dryRun);
      Ok(Sorting.SortDesc(unsorted, ScoreOf, Sorting.RealGreater))
  }

  predicate IsRanked(rankings: seq<SourceRanking>, source: DataSource) {
    exists k :: 0 <= k < |rankings| && rankings[k].source == source
  }

  /** At most three rankings, every score in [0, 1], NHANES, SEER and
      PhysioNet ranked exactly as the flags say and user upload never. */
  predicate RanksExactly(rankings: seq<SourceRanking>, nhanes: bool, seer: bool, physionet: bool) {
    && |rankings| <= 3
    && (forall i :: 0 <= i < |rankings| ==> 0.0 <= rankings[i].score <= 1.0)
    && (IsRanked(rankings, Nhanes) <==> nhanes)
    && (IsRanked(rankings, Seer) <==> seer)
    && (IsRanked(rankings, Physionet) <==> physionet)
    && !IsRanked(rankings, UserUpload)
  }

  /** The ranked list is sorted by score, highest first, holds at most
      three rankings, NHANES exactly when its ranking did not raise, SEER
      exactly when it was considered and has a cancer outcome, PhysioNet exactly when the area names a
      signal and a required variable does too, and every score is in
      [0, 1]. */
  lemma {:induction false} RankSourcesProperties(parsing: QueryParsing, categories: seq<seq<VariableEntry>>, dryRun: DryRun)
    requires parsing.researchArea.Some?
    ensures var rankings := RankSources(parsing, categories, dryRun).value;
      && (forall i, j :: 0 <= i < j < |rankings| ==> rankings[i].score >= rankings[j].score)
      && RanksExactly(rankings, !dryRun.Raised?,
           SeerConsidered(parsing) && AnyLowerContains(parsing.outcomes, CancerTerms),
           PhysionetConsidered(parsing.researchArea.value) && AnyLowerContains(parsing.requiredVariables, SignalTerms))
  {
    var area := parsing.researchArea.value;
    RankSourcesSorts(parsing, categories, dryRun);
    UnsortedRankingsProperties(parsing, area, categories, dryRun);
    SortKeepsShape(UnsortedRankings(parsing, area, categories, dryRun), !dryRun.Raised?,
      SeerConsidered(parsing) && AnyLowerContains(parsing.outcomes, CancerTerms),
      PhysionetConsidered(area) && AnyLowerContains(parsing.requiredVariables, SignalTerms));
  }

  lemma RankSourcesSorts(parsing: QueryParsing, categories: seq<seq<VariableEntry>>, dryRun: DryRun)
    requires parsing.researchArea.Some?
    ensures RankSources(parsing, categories, dryRun).value
         == Sorting.SortDesc(UnsortedRankings(parsing, parsing.researchArea.value, categories, dryRun), ScoreOf, Sorting.RealGreater)
  {
  }

  /** Sorting keeps which sources are ranked and the scores' range. */
  lemma SortKeepsShape(unsorted: seq<SourceRanking>, nhanes: bool, seer: bool, physionet: bool)
    requires RanksExactly(unsorted, nhanes, seer, physionet)
    ensures var rankings := Sorting.SortDesc(unsorted, ScoreOf, Sorting.RealGreater);
      && (forall i, j :: 0 <= i < j < |rankings| ==> rankings[i].score >= rankings[j].score)
      && RanksExactly(rankings, nhanes, seer, physionet)
  {
    SortByScore(unsorted);
    var rankings := Sorting.SortDesc(unsorted, ScoreOf, Sorting.RealGreater);
    forall i | 0 <= i < |rankings| ensures 0.0 <= rankings[i].score <= 1.0 {
      assert rankings[i] in unsorted;
    }
  }

  lemma {:induction false} UnsortedRankingsProperties(parsing: QueryParsing, area: string, categories: seq<seq<VariableEntry>>, dryRun: DryRun)
    ensures RanksExactly(UnsortedRankings(parsing, area, categories, dryRun), !dryRun.Raised?,
      SeerConsidered(parsing) && AnyLowerContains(parsing.outcomes, CancerTerms),
      PhysionetConsidered(area) && AnyLowerContains(parsing.requiredVariables, SignalTerms))
  {
    var seer := if SeerConsidered(parsing) then RankSeer(parsing) else None;
    var physionet := if PhysionetConsidered(area) then RankPhysionet(parsing) else None;
    ListedSources(RankNhanes(parsing, categories, dryRun), seer, physionet);
  }

  /** The NHANES, SEER and PhysioNet rankings that exist, in that order,
      rank exactly those sources. */
  lemma ListedSources(nhanes: Option<SourceRanking>, seer: Option<SourceRanking>, physionet: Option<SourceRanking>)
    requires nhanes.Some? ==> nhanes.value.source == Nhanes && 0.0 <= nhanes.value.score <= 1.0
    requires seer.Some? ==> seer.value.source == Seer && 0.0 <= seer.value.score <= 1.0
    requires physionet.Some? ==> physionet.value.source == Physionet && 0.0 <= physionet.value.score <= 1.0
    ensures var u := (if nhanes.Some? then [nhanes.value] else [])
                     + (if seer.Some? then [seer.value] else [])
                     + (if physionet.Some? then [physionet.value] else []);
      RanksExactly(u, nhanes.Some?, seer.Some?, physionet.Some?)
  {
    var n := if nhanes.Some? then [nhanes.value] else [];
    var s := if seer.Some? then [seer.value] else [];
    var p := if physionet.Some? then [physionet.value] else [];
    var u := n + s + p;
    assert forall x :: x in u <==> x in n || x in s || x in p;
    forall src ensures IsRanked(u, src) <==> ((nhanes.Some? && src == Nhanes) || (seer.Some? && src == Seer) || (physionet.Some? && src == Physionet)) {
      if IsRanked(u, src) {
        var k :| 0 <= k < |u| && u[k].source == src;
        assert u[k] in u;
      }
      if seer.Some? && src == Seer {
        assert u[|n|] == seer.value;
      }
      if physionet.Some? && src == Physionet {
        assert u[|u| - 1] == physionet.value;
      }
      if nhanes.Some? && src == Nhanes {
        assert u[0] == nhanes.value;
      }
    }
  }

  /** Sorting by score keeps the rankings and orders them highest first. */
  lemma {:induction false} SortByScore(unsorted: seq<SourceRanking>)
    ensures var rankings := Sorting.SortDesc(unsorted, ScoreOf, Sorting.RealGreater);
      && |rankings| == |unsorted|
      && (forall i, j :: 0 <= i < j < |rankings| ==> rankings[i].score >= rankings[j].score)
      && (forall x :: x in rankings <==> x in unsorted)
      && (forall s :: IsRanked(rankings, s) <==> IsRanked(unsorted, s))
  {
    var rankings := Sorting.SortDesc(unsorted, ScoreOf, Sorting.RealGreater);
    Sorting.RealGreaterStrictTotal();
    Sorting.SortDescSorted(unsorted, ScoreOf, Sorting.RealGreater);
    assert |rankings| == |multiset(rankings)| == |multiset(unsorted)| == |unsorted|;
    forall i, j | 0 <= i < j < |rankings| ensures rankings[i].score >= rankings[j].score {
      assert !Sorting.RealGreater(ScoreOf(rankings[j]), ScoreOf(rankings[i]));
    }
    forall x ensures x in rankings <==> x in unsorted {
      assert x in rankings <==> x in multiset(rankings);
      assert x in unsorted <==> x in multiset(unsorted);
    }
    forall s ensures IsRanked(rankings, s) <==> IsRanked(unsorted, s) {
      if IsRanked(rankings, s) {
        var k :| 0 <= k < |rankings| && rankings[k].source == s;
        assert rankings[k] in unsorted;
      }
      if IsRanked(unsorted, s) {
        var k :| 0 <= k < |unsorted| && unsorted[k].source == s;
        assert unsorted[k] in rankings;
      }
    }
  }

  /** Stability of the sort: rankings with equal scores keep their order. */
  lemma {:induction false} RankSourcesStable(parsing: QueryParsing, categories: seq<seq<VariableEntry>>, dryRun: DryRun, score: real)
    requires parsing.researchArea.Some?
    ensures Sorting.WithKey(RankSources(parsing, categories, dryRun).value, ScoreOf, score)
         == Sorting.WithKey(UnsortedRankings(parsing, parsing.researchArea.value, categories, dryRun), ScoreOf, score)
  {
    Sorting.RealGreaterStrictTotal();
    Sorting.SortDescStable(UnsortedRankings(parsing, parsing.researchArea.value, categories, dryRun), ScoreOf, Sorting.RealGreater, score);
  }

  // ---------------------------------------------------------------------
  // Source selection

  /** The preferred sources that some ranking is for, in preference order. */
  function AvailablePreferred(rankings: seq<SourceRanking>, preferred: seq<DataSource>): (r: seq<DataSource>)
    ensures |r| <= |preferred|
    ensures forall x :: x in r <==> x in preferred && IsRanked(rankings, x)
  {
    if preferred == [] then []
    else (if IsRanked(rankings, preferred[0]) then [preferred[0]] else []) + AvailablePreferred(rankings, preferred[1..])
  }

  /** The sources of the rankings scoring above 0.5, in ranking order. */
  function ScoringSources(rankings: seq<SourceRanking>): (r: seq<DataSource>)
    ensures forall x :: x in r ==> IsRanked(rankings, x)
  {
    if rankings == [] then []
    else
      var init := rankings[..|rankings| - 1];
      var last := rankings[|rankings| - 1];
      var rest := ScoringSources(init);
      assert forall x :: IsRanked(init, x) ==> IsRanked(rankings, x) by {
        forall x | IsRanked(init, x) ensures IsRanked(rankings, x) {
          var k :| 0 <= k < |init| && init[k].source == x;
          assert rankings[k] == init[k];
        }
      }
      if last.score > 0.5 then rest + [last.source] else rest
  }

  lemma {:induction false} ScoringSourcesPrefix(rankings: seq<SourceRanking>, i: nat)
    requires i <= |rankings|
    ensures ScoringSources(rankings[..i]) <= ScoringSources(rankings)
    decreases |rankings| - i
  {
    if i < |rankings| {
      ScoringSourcesPrefix(rankings, i + 1);
      assert rankings[..i + 1][..i] == rankings[..i];
    } else {
      assert rankings[..i] == rankings;
    }
  }

  /** `_select_sources`: the ranked preferred sources (at most two) when
      there are any; otherwise the first two sources scoring above 0.5, or
      the best-ranked source when none does. `preferred` is empty when the
      query states no preference. */
  method SelectSources(rankings: seq<SourceRanking>, preferred: seq<DataSource>) returns (selected: seq<DataSource>)
    ensures |selected| <= 2
    ensures selected == [] <==> rankings == []
    ensures forall x :: x in selected ==> IsRanked(rankings, x)
    ensures rankings != [] && AvailablePreferred(rankings, preferred) != [] ==>
      selected == PySliceTo(AvailablePreferred(rankings, preferred), 2)
    ensures rankings != [] && AvailablePreferred(rankings, preferred) == [] ==>
      selected == if ScoringSources(rankings) == [] then [rankings[0].source]
                  else PySliceTo(ScoringSources(rankings), 2)
  {
    if rankings == [] {
      return [];
    }
    if preferred != [] {
      var availablePreferred := AvailablePreferred(rankings, preferred);
      if availablePreferred != [] {
        selected := PySliceTo(availablePreferred, 2);
        assert forall x :: x in selected ==> x in availablePreferred;
        return;
      }
    }
    selected := [];
    var i := 0;
    while i < |rankings|
      invariant 0 <= i <= |rankings|
      invariant selected == ScoringSources(rankings[..i])
      invariant |selected| < 2
    {
      assert rankings[..i + 1][..i] == rankings[..i];
      if rankings[i].score > 0.5 {
        selected := selected + [rankings[i].source];
        if |selected| >= 2 {
          ScoringSourcesPrefix(rankings, i + 1);
          assert selected == PySliceTo(ScoringSources(rankings), 2);
          forall x | x in selected ensures IsRanked(rankings, x) {
            assert x in ScoringSources(rankings);
          }
          return;
        }
      }
      i := i + 1;
    }
    assert rankings[..i] == rankings;
    if selected == [] {
      selected := [rankings[0].source];
    }
  }

  // ---------------------------------------------------------------------
  // NHANES filter

  /** `male` is 1 and `female` is 2, case-insensitively. */
  function SexCode(sex: string): Option<int> {
    var l := Lower(sex);
    if l == "male" then Some(1) else if l == "female" then Some(2) else None
  }

  /** The codes of the recognised entries, in order. */
  function SexCodes(sexes: seq<string>): (codes: seq<int>)
    ensures |codes| <= |sexes|
    ensures forall c :: c in codes ==> c == 1 || c == 2
  {
    if sexes == [] then []
    else
      var c := SexCode(sexes[|sexes| - 1]);
      SexCodes(sexes[..|sexes| - 1]) + (if c.Some? then [c.value] else [])
  }

  /** No code is produced exactly when no entry is male or female. */
  lemma {:induction false} SexCodesEmpty(sexes: seq<string>)
    ensures SexCodes(sexes) == [] <==> forall i :: 0 <= i < |sexes| ==> SexCode(sexes[i]).None?
    decreases |sexes|
  {
    if sexes != [] {
      var init := sexes[..|sexes| - 1];
      SexCodesEmpty(init);
      assert forall i :: 0 <= i < |init| ==> init[i] == sexes[i];
    }
  }

  /** The NHANES `where` filter: `RIDAGEYR` holds the age range and
      `RIAGENDR` the sex codes. */
  datatype NhanesFilters = NhanesFilters(ageYears: Option<seq<int>>, gender: Option<seq<int>>)

  method BuildNhanesFilters(constraints: ResearchConstraints) returns (filters: NhanesFilters)
    ensures filters.ageYears.Some? <==> constraints.ageRange.Some? && constraints.ageRange.value != []
    ensures filters.ageYears.Some? ==> filters.ageYears == constraints.ageRange
    ensures filters.gender.Some? <==>
      constraints.sex.Some? && exists i :: 0 <= i < |constraints.sex.value| && SexCode(constraints.sex.value[i]).Some?
    ensures filters.gender.Some? ==> filters.gender.value == SexCodes(constraints.sex.value)
  {
    filters := NhanesFilters(None, None);
    if constraints.ageRange.Some? && constraints.ageRange.value != [] {
      filters := filters.(ageYears := constraints.ageRange);
    }
    if constraints.sex.Some? && constraints.sex.value != [] {
      var sexes := constraints.sex.value;
      var codes: seq<int> := [];
      for i := 0 to |sexes|
        invariant codes == SexCodes(sexes[..i])
      {
        assert sexes[..i + 1][..i] == sexes[..i];
        var l := Lower(sexes[i]);
        if l == "male" {
          codes := codes + [1];
        } else if l == "female" {
          codes := codes + [2];
        }
      }
      assert sexes[..|sexes|] == sexes;
      SexCodesEmpty(sexes);
      if codes != [] {
        filters := filters.(gender := Some(codes));
      }
    }
  }

  // ---------------------------------------------------------------------
  // Synthetic data

  datatype SynthMethod = Ctgan | Vae

  datatype SyntheticRecommendation = SyntheticRecommendation(reason: string, suggestedSize: int, synthMethod: SynthMethod)

  /** Synthetic data is recommended below 5000 rows: CTGAN with 10000 rows
      below 1000, a VAE with 20000 rows otherwise. */
  function EvaluateSyntheticNeed(totalRows: int): (r: Option<SyntheticRecommendation>)
    ensures r.Some? <==> totalRows < 5000
    ensures r.Some? ==> r.value.suggestedSize > 4 * totalRows
    ensures r.Some? ==> (r.value.synthMethod == Ctgan <==> totalRows < 1000)
    ensures r.Some? ==> (r.value.suggestedSize == 10000 <==> r.value.synthMethod == Ctgan)
    ensures r.Some? ==> r.value.suggestedSize in {10000, 20000}
  {
    if totalRows < 1000 then Some(SyntheticRecommendation("Small sample size", 10000, Ctgan))
    else if totalRows < 5000 then Some(SyntheticRecommendation("Moderate sample size, could benefit from augmentation", 20000, Vae))
    else None
  }

  /** A smaller dataset is recommended synthetic data whenever a larger one is. */
  lemma SyntheticNeedMonotone(smaller: int, larger: int)
    requires smaller <= larger
    requires EvaluateSyntheticNeed(larger).Some?
    ensures EvaluateSyntheticNeed(smaller).Some?
    ensures EvaluateSyntheticNeed(smaller).value.suggestedSize <= EvaluateSyntheticNeed(larger).value.suggestedSize
  {
  }
}
