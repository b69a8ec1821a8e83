/** The canonical name `_standardize_variable_names` gives a variable: the
    recognised entity that spells it the same way, else the best of the
    entities sharing most of its words or containing it (or contained in
    it), else the name itself. */
module CanonicalNames {
  import opened Common
  import Sorting

  // ---------------------------------------------------------------------
  // Word tokens (`re.findall(r'\b\w+\b', s)`)

  /** The length of the run of word characters at the start of `s`. */
  function WordRun(s: string): (n: nat)
    ensures n <= |s|
    ensures forall k :: 0 <= k < n ==> IsWordChar(s[k])
    ensures n < |s| ==> !IsWordChar(s[n])
  {
    if s == [] || !IsWordChar(s[0]) then 0 else 1 + WordRun(s[1..])
  }

  /** The maximal runs of word characters in `s`, in order. */
  function TokenList(s: string): (r: seq<string>)
    ensures forall t :: t in r ==> |t| > 0 && forall k :: 0 <= k < |t| ==> IsWordChar(t[k])
    decreases |s|
  {
    if s == [] then []
    else if !IsWordChar(s[0]) then TokenList(s[1..])
    else
      var n := WordRun(s);
      [s[..n]] + TokenList(s[n..])
  }

  /** The set of words of `s`. */
  function Tokens(s: string): set<string> {
    set t | t in TokenList(s)
  }

  /** A text without word characters has no words. */
  lemma {:induction false} NoWordCharsNoTokens(s: string)
    requires forall k :: 0 <= k < |s| ==> !IsWordChar(s[k])
    ensures TokenList(s) == []
    decreases |s|
  {
    if s != [] {
      NoWordCharsNoTokens(s[1..]);
    }
  }

  // ---------------------------------------------------------------------
  // Candidate entities

  /** A candidate entity with its score and its length. */
  datatype Match = Match(entity: string, ratio: real, len: nat)

  const MinOverlap: real := 0.5
  const ContainsEntityScore: real := 0.8
  const ContainedInEntityScore: real := 0.7

  function Max(a: nat, b: nat): nat {
    if a >= b then a else b
  }

  /** How `entity` scores as a canonical name for `varName`: entities under
      three characters never match; when the two share words, the share of
      words over the larger word set must exceed one half; when they share
      none and both have at least five characters, an entity inside the name
      scores 0.8 and a name inside the entity 0.7. */
  function MatchOf(varName: string, entity: string): (r: Option<Match>)
    ensures r.Some? ==> r.value.entity == entity && r.value.len == |entity| && |entity| >= 3
    ensures r.Some? ==> r.value.ratio > MinOverlap
    ensures r.Some? && Tokens(Lower(varName)) * Tokens(Lower(entity)) == {} ==>
      |entity| >= 5 && |varName| >= 5
      && (r.value.ratio == ContainsEntityScore <==> Contains(Lower(varName), Lower(entity)))
  {
    var vl := Lower(varName);
    var el := Lower(entity);
    if |entity| < 3 then None
    else
      var vt := Tokens(vl);
      var et := Tokens(el);
      var overlap := vt * et;
      if overlap != {} then
        var ratio := |overlap| as real / Max(|vt|, |et|) as real;
        if ratio > MinOverlap then Some(Match(entity, ratio, |entity|)) else None
      else if |entity| >= 5 && |varName| >= 5 then
        if Contains(vl, el) then Some(Match(entity, ContainsEntityScore, |entity|))
        else if Contains(el, vl) then Some(Match(entity, ContainedInEntityScore, |entity|))
        else None
      else None
  }

  /** The candidates among the entities, in their order. */
  function Matches(varName: string, entities: seq<string>): (r: seq<Match>)
    ensures forall m :: m in r ==> m.entity in entities && MatchOf(varName, m.entity) == Some(m)
  {
    if entities == [] then []
    else
      var rest := Matches(varName, entities[1..]);
      match MatchOf(varName, entities[0])
      case None => rest
      case Some(m) => [m] + rest
  }

  // ---------------------------------------------------------------------
  // Choosing the best candidate

  /** The sort key `(-ratio, len)` read as "comes first": a higher ratio,
      then a shorter entity. */
  function MatchKey(m: Match): (real, int) {
    (m.ratio, m.len)
  }

  function ComesFirst(a: (real, int), b: (real, int)): bool {
    a.0 > b.0 || (a.0 == b.0 && a.1 < b.1)
  }

  lemma ComesFirstStrictTotal()
    ensures Sorting.StrictTotal(ComesFirst)
  {
  }

  /** The head of the stably sorted candidates: no candidate has a higher
      ratio, none with the same ratio is shorter, and it is the first of the
      candidates with its ratio and length. */
  function BestMatch(ms: seq<Match>): (m: Match)
    requires |ms| > 0
    ensures m in ms
    ensures forall x :: x in ms ==> !ComesFirst(MatchKey(x), MatchKey(m))
    ensures |Sorting.WithKey(ms, MatchKey, MatchKey(m))| > 0
    ensures Sorting.WithKey(ms, MatchKey, MatchKey(m))[0] == m
  {
    var sorted := Sorting.SortDesc(ms, MatchKey, ComesFirst);
    assert multiset(sorted) == multiset(ms);
    assert |sorted| == |multiset(sorted)| == |multiset(ms)| == |ms|;
    var m := sorted[0];
    assert m in multiset(ms);
    ComesFirstStrictTotal();
    Sorting.SortDescSorted(ms, MatchKey, ComesFirst);
    forall x | x in ms
      ensures !ComesFirst(MatchKey(x), MatchKey(m))
    {
      assert x in multiset(sorted);
      var j :| 0 <= j < |sorted| && sorted[j] == x;
      if j == 0 {
        assert !ComesFirst(MatchKey(m), MatchKey(m));
      }
    }
    Sorting.SortDescStable(ms, MatchKey, ComesFirst, MatchKey(m));
    m
  }

  /** The first entity spelt like the name, ignoring case. */
  function ExactMatch(entities: seq<string>, varLower: string): (r: Option<string>)
    ensures r.None? <==> forall e :: e in entities ==> Lower(e) != varLower
    ensures r.Some? ==> r.value in entities && Lower(r.value) == varLower
    ensures r.Some? ==> exists k :: 0 <= k < |entities| && entities[k] == r.value && FirstSpelt(entities, varLower, k)
  {
    if entities == [] then None
    else if Lower(entities[0]) == varLower then
      assert entities[0] in entities;
      assert FirstSpelt(entities, varLower, 0);
      Some(entities[0])
    else
      var rest := entities[1..];
      assert forall e :: e in entities <==> e == entities[0] || e in rest;
      var r := ExactMatch(rest, varLower);
      if r.Some? then
        var k :| 0 <= k < |rest| && rest[k] == r.value && FirstSpelt(rest, varLower, k);
        assert entities[k + 1] == r.value;
        assert FirstSpelt(entities, varLower, k + 1) by {
          assert forall j :: 1 <= j < k + 1 ==> entities[j] == rest[j - 1];
        }
        r
      else r
  }

  /** The chemicals are listed before the diseases, so a chemical spelt
      like the name wins over a disease spelt the same. */
  lemma {:induction false} ChemicalsMatchFirst(chemicals: seq<string>, diseases: seq<string>, varLower: string, chemical: string)
    requires chemical in chemicals && Lower(chemical) == varLower
    ensures ExactMatch(chemicals + diseases, varLower) == ExactMatch(chemicals, varLower)
    ensures ExactMatch(chemicals + diseases, varLower).Some?
    ensures ExactMatch(chemicals + diseases, varLower).value in chemicals
  {
    assert (chemicals + diseases)[0] == chemicals[0];
    if Lower(chemicals[0]) != varLower {
      var rest := chemicals[1..];
      assert chemical in rest;
      assert (chemicals + diseases)[1..] == rest + diseases;
      ChemicalsMatchFirst(rest, diseases, varLower, chemical);
    }
  }

  /** No entity before position `k` is spelt like the name, ignoring case. */
  predicate FirstSpelt(entities: seq<string>, varLower: string, k: int)
    requires 0 <= k <= |entities|
  {
    forall j :: 0 <= j < k ==> Lower(entities[j]) != varLower
  }

  /** `find_canonical_name`: names under three characters are kept; an
      entity spelt the same wins; otherwise the best candidate; otherwise
      the name. The result is the name or one of the entities. */
  function FindCanonicalName(varName: string, entities: seq<string>): (r: string)
    ensures r == varName || r in entities
    ensures |varName| < 3 ==> r == varName
  {
    if |varName| < 3 then varName
    else match ExactMatch(entities, Lower(varName))
      case Some(e) => e
      case None =>
        var ms := Matches(varName, entities);
        if |ms| > 0 then BestMatch(ms).entity else varName
  }

  /** Without an entity spelt the same, the canonical name is the entity
      of a best candidate: none scores higher, none with that score is
      shorter, and it comes first among its equals. */
  lemma {:induction false} CanonicalIsBestCandidate(varName: string, entities: seq<string>)
    requires |varName| >= 3
    requires forall e :: e in entities ==> Lower(e) != Lower(varName)
    requires |Matches(varName, entities)| > 0
    ensures var ms := Matches(varName, entities);
      exists m :: m in ms && m.entity == FindCanonicalName(varName, entities)
        && (forall x :: x in ms ==> !ComesFirst(MatchKey(x), MatchKey(m)))
  {
    var ms := Matches(varName, entities);
    assert ExactMatch(entities, Lower(varName)).None?;
    var m := BestMatch(ms);
    assert FindCanonicalName(varName, entities) == m.entity;
    assert m in ms;
  }

  /** A name no entity matches keeps its own spelling. */
  lemma UnmatchedNameKept(varName: string, entities: seq<string>)
    requires forall e :: e in entities ==> Lower(e) != Lower(varName)
    requires Matches(varName, entities) == []
    ensures FindCanonicalName(varName, entities) == varName
  {
  }

  /** Any spelling of a recognised entity maps to the first entity spelt
      that way. */
  lemma SpellingVariantsMerge(a: string, b: string, entities: seq<string>)
    requires |a| >= 3 && Lower(a) == Lower(b)
    requires exists e :: e in entities && Lower(e) == Lower(a)
    ensures FindCanonicalName(a, entities) == FindCanonicalName(b, entities)
    ensures Lower(FindCanonicalName(a, entities)) == Lower(a)
  {
  }

  /** Short entities such as "in" never become a canonical name unless
      spelt exactly like the variable. */
  lemma ShortEntityNeverCandidate(varName: string, entity: string)
    requires |entity| < 3
    ensures MatchOf(varName, entity).None?
  {
  }
}
