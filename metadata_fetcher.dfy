/** NHANES variable metadata gathered from several sources: the record
    type with its unit fallback, the time-to-live cache, and the merge that
    keeps one record per variable name, preferring the more trusted source. */
module NhanesMetadata {
  import opened Common

  datatype VariableMetadata = VariableMetadata(
    variableName: string,
    variableDescription: string,
    dataFileName: string,
    dataFileDescription: string,
    component: string,
    beginYear: string,
    endYear: string,
    source: string,
    unit: Option<string>)

  /** Python truthiness of an optional string: present and non-empty. */
  predicate Truthy(s: Option<string>) {
    s.Some? && s.value != ""
  }

  /** Builds a record. An explicit non-empty unit is kept as given; a
      missing or empty one is taken from the description by `extractUnit`
      (a regular-expression search, not modelled). */
  function NewVariableMetadata(
    variableName: string, variableDescription: string, dataFileName: string,
    dataFileDescription: string, component: string, beginYear: string, endYear: string,
    source: string, unit: Option<string>, extractUnit: string -> Option<string>): (m: VariableMetadata)
    ensures Truthy(unit) ==> m.unit == unit
    ensures !Truthy(unit) ==> m.unit == extractUnit(variableDescription)
    ensures m.variableName == variableName && m.variableDescription == variableDescription
    ensures m.source == source && m.component == component
  {
    VariableMetadata(variableName, variableDescription, dataFileName, dataFileDescription,
                     component, beginYear, endYear, source,
                     if Truthy(unit) then unit else extractUnit(variableDescription))
  }

  // ---------------------------------------------------------------------
  // Time-to-live cache

  /** The value a lookup at `now` returns: present only while strictly
      younger than `ttl` seconds. */
  function CacheLookup<V>(entries: map<string, (real, V)>, key: string, now: real, ttl: int): (r: Option<V>)
    ensures r.Some? <==> key in entries && now - entries[key].0 < ttl as real
    ensures r.Some? ==> r.value == entries[key].1
  {
    if key in entries && now - entries[key].0 < ttl as real then Some(entries[key].1) else None
  }

  /** The entries after a lookup at `now`: an expired entry for `key` is
      deleted, nothing else changes. */
  function CacheAfterLookup<V>(entries: map<string, (real, V)>, key: string, now: real, ttl: int)
    : (r: map<string, (real, V)>)
    ensures key in entries && now - entries[key].0 >= ttl as real ==> r == entries - {key}
    ensures !(key in entries && now - entries[key].0 >= ttl as real) ==> r == entries
  {
    if key in entries && now - entries[key].0 >= ttl as real then entries - {key} else entries
  }

  /** A value stored at `now` is returned by a lookup at the same instant
      whenever the time-to-live is positive. */
  lemma SetThenGet<V>(entries: map<string, (real, V)>, key: string, value: V, now: real, ttl: int)
    requires ttl > 0
    ensures CacheLookup(entries[key := (now, value)], key, now, ttl) == Some(value)
    ensures CacheAfterLookup(entries[key := (now, value)], key, now, ttl) == entries[key := (now, value)]
  {
  }

  /** A lookup that misses because of expiry leaves nothing for a second
      lookup: the second one misses too and changes nothing. */
  lemma ExpiredStaysGone<V>(entries: map<string, (real, V)>, key: string, now: real, ttl: int)
    requires CacheLookup(entries, key, now, ttl) == None
    ensures var after := CacheAfterLookup(entries, key, now, ttl);
            CacheLookup(after, key, now, ttl) == None && CacheAfterLookup(after, key, now, ttl) == after
  {
  }

  class MetadataCache<V> {
    const ttlSeconds: int
    /** key -> (time stored, value) */
    var cache: map<string, (real, V)>

    constructor(ttl: int := 86400)
      ensures ttlSeconds == ttl && cache == map[]
    {
      ttlSeconds := ttl;
      cache := map[];
    }

    /** The cached value for `key` at time `now`; an expired entry is deleted. */
    method Get(key: string, now: real) returns (r: Option<V>)
      modifies this
      ensures r == CacheLookup(old(cache), key, now, ttlSeconds)
      ensures cache == CacheAfterLookup(old(cache), key, now, ttlSeconds)
    {
      r := None;
      if key in cache {
        var (timestamp, value) := cache[key];
        if now - timestamp < ttlSeconds as real {
          r := Some(value);
        } else {
          cache := cache - {key};
        }
      }
    }

    /** Stores `value` under `key`, stamped `now`, replacing any entry. */
    method Set(key: string, value: V, now: real)
      modifies this
      ensures cache == old(cache)[key := (now, value)]
    {
      cache := cache[key := (now, value)];
    }
  }

  // ---------------------------------------------------------------------
  // Merge by variable name

  /** html_scraper > api > pytool > anything else. */
  function Priority(source: string): (p: int)
    ensures 0 <= p <= 3
    ensures p == 3 <==> source == "html_scraper"
    ensures p == 0 <==> source != "html_scraper" && source != "api" && source != "pytool"
  {
    if source == "html_scraper" then 3
    else if source == "api" then 2
    else if source == "pytool" then 1
    else 0
  }

  /** The first record in `s` named `name`. */
  function Lookup(s: seq<VariableMetadata>, name: string): (r: Option<VariableMetadata>)
    ensures r.None? <==> forall i :: 0 <= i < |s| ==> s[i].variableName != name
    ensures r.Some? ==> r.value.variableName == name && r.value in s
  {
    if s == [] then None
    else if s[0].variableName == name then Some(s[0])
    else Lookup(s[1..], name)
  }

  /** Python's `list.remove(x)`: drops the first element equal to `x`
      (a no-op here when there is none; the loop never calls it so). */
  function Remove<T(==)>(s: seq<T>, x: T): (r: seq<T>)
    ensures x !in s ==> r == s
    ensures x in s ==> |r| == |s| - 1
                       && (forall i :: 0 <= i < FirstIndex(s, x) ==> r[i] == s[i])
                       && (forall i :: FirstIndex(s, x) <= i < |r| ==> r[i] == s[i + 1])
  {
    if s == [] then []
    else if s[0] == x then s[1..]
    else
      assert x in s <==> x in s[1..];
      [s[0]] + Remove(s[1..], x)
  }

  /** The index of the first element equal to `x`. */
  function FirstIndex<T(==)>(s: seq<T>, x: T): (k: nat)
    requires x in s
    ensures k < |s| && s[k] == x
    ensures forall i :: 0 <= i < k ==> s[i] != x
  {
    if s[0] == x then 0
    else
      assert x in s[1..];
      1 + FirstIndex(s[1..], x)
  }

  /** One step of the merge loop: a new name is appended; a known name is
      replaced by a record of strictly higher priority, which moves to the
      end of the list. */
  function DedupStep(acc: seq<VariableMetadata>, meta: VariableMetadata): seq<VariableMetadata> {
    match Lookup(acc, meta.variableName)
    case None => acc + [meta]
    case Some(existing) =>
      if Priority(meta.source) > Priority(existing.source) then Remove(acc, existing) + [meta]
      else acc
  }

  /** The merge loop as a fold over the gathered records. */
  function Dedup(all: seq<VariableMetadata>): seq<VariableMetadata> {
    if all == [] then []
    else DedupStep(Dedup(all[..|all| - 1]), all[|all| - 1])
  }

  /** The records of `s` named `name`, in order. */
  function Named(s: seq<VariableMetadata>, name: string): (r: seq<VariableMetadata>)
    ensures forall i :: 0 <= i < |r| ==> r[i].variableName == name && r[i] in s
    ensures r == [] <==> forall i :: 0 <= i < |s| ==> s[i].variableName != name
  {
    if s == [] then []
    else
      var rest := Named(s[..|s| - 1], name);
      if s[|s| - 1].variableName == name then rest + [s[|s| - 1]] else rest
  }

  /** The record the merge should keep among `s`: one of maximal priority,
      and the earliest of those. */
  function Best(s: seq<VariableMetadata>): (b: VariableMetadata)
    requires s != []
    ensures b in s
    ensures forall i :: 0 <= i < |s| ==> Priority(s[i].source) <= Priority(b.source)
    ensures exists k :: 0 <= k < |s| && s[k] == b &&
              forall i :: 0 <= i < k ==> Priority(s[i].source) < Priority(b.source)
  {
    if |s| == 1 then
      assert s[0] == s[0];
      s[0]
    else
      var init := s[..|s| - 1];
      var b := Best(init);
      var last := s[|s| - 1];
      assert forall i :: 0 <= i < |init| ==> s[i] == init[i];
      if Priority(last.source) > Priority(b.source) then
        assert forall i :: 0 <= i < |s| - 1 ==> Priority(s[i].source) < Priority(last.source);
        last
      else
        BestWitnessExtends(init, last, b);
        assert b in init;
        b
  }

  /** An earliest index of `b` among the maximal ones in `init` is still
      one in `init + [last]`. */
  lemma BestWitnessExtends(init: seq<VariableMetadata>, last: VariableMetadata, b: VariableMetadata)
    requires exists k :: 0 <= k < |init| && init[k] == b &&
              forall i :: 0 <= i < k ==> Priority(init[i].source) < Priority(b.source)
    ensures exists k :: 0 <= k < |init + [last]| && (init + [last])[k] == b &&
              forall i :: 0 <= i < k ==> Priority((init + [last])[i].source) < Priority(b.source)
  {
    var k :| 0 <= k < |init| && init[k] == b &&
             forall i :: 0 <= i < k ==> Priority(init[i].source) < Priority(b.source);
    assert (init + [last])[k] == b;
  }

  ghost predicate DistinctNames(s: seq<VariableMetadata>) {
    forall i, j :: 0 <= i < j < |s| ==> s[i].variableName != s[j].variableName
  }

  lemma {:induction false} LookupDistinct(s: seq<VariableMetadata>, k: int)
    requires DistinctNames(s) && 0 <= k < |s|
    ensures Lookup(s, s[k].variableName) == Some(s[k])
    decreases |s|
  {
    if k > 0 {
      assert s[1..][k - 1] == s[k];
      LookupDistinct(s[1..], k - 1);
    }
  }

  lemma {:induction false} RemoveKeepsDistinct(s: seq<VariableMetadata>, x: VariableMetadata)
    requires DistinctNames(s)
    ensures DistinctNames(Remove(s, x))
  {
    if x in s {
      var k := FirstIndex(s, x);
      var r := Remove(s, x);
      forall i, j | 0 <= i < j < |r| ensures r[i].variableName != r[j].variableName {
        var i' := if i < k then i else i + 1;
        var j' := if j < k then j else j + 1;
        assert r[i] == s[i'] && r[j] == s[j'];
      }
    }
  }

  lemma {:induction false} RemoveLookup(s: seq<VariableMetadata>, x: VariableMetadata, n: string)
    requires DistinctNames(s) && x in s
    ensures n != x.variableName ==> Lookup(Remove(s, x), n) == Lookup(s, n)
    ensures n == x.variableName ==> Lookup(Remove(s, x), n) == None
    decreases |s|
  {
    if s[0] != x {
      assert x in s[1..];
      assert DistinctNames(s[1..]) by {
        assert forall i, j :: 0 <= i < j < |s| - 1 ==> s[1..][i] == s[i + 1] && s[1..][j] == s[j + 1];
      }
      RemoveLookup(s[1..], x, n);
      if n == x.variableName {
        var k :| 0 <= k < |s[1..]| && s[1..][k] == x;
        assert s[k + 1] == x;
      }
    } else if n == x.variableName {
      forall j | 0 <= j < |s[1..]| ensures s[1..][j].variableName != n {
        assert s[1..][j] == s[j + 1];
      }
    }
  }

  lemma {:induction false} LookupAppend(s: seq<VariableMetadata>, x: VariableMetadata, n: string)
    ensures Lookup(s + [x], n) == if Lookup(s, n).Some? then Lookup(s, n)
                                 else if x.variableName == n then Some(x) else None
    decreases |s|
  {
    if s != [] {
      assert (s + [x])[1..] == s[1..] + [x];
      LookupAppend(s[1..], x, n);
    }
  }

  /** How one step changes the record kept for each name. */
  lemma {:induction false} DedupStepLookup(acc: seq<VariableMetadata>, meta: VariableMetadata, n: string)
    requires DistinctNames(acc)
    ensures DistinctNames(DedupStep(acc, meta))
    ensures Lookup(DedupStep(acc, meta), n) ==
              if n != meta.variableName then Lookup(acc, n)
              else if Lookup(acc, n).None? then Some(meta)
              else if Priority(meta.source) > Priority(Lookup(acc, n).value.source) then Some(meta)
              else Lookup(acc, n)
  {
    var r := DedupStep(acc, meta);
    match Lookup(acc, meta.variableName)
    case None =>
      LookupAppend(acc, meta, n);
      forall i, j | 0 <= i < j < |r| ensures r[i].variableName != r[j].variableName {
        if j == |acc| {
          assert r[i] == acc[i];
        } else {
          assert r[i] == acc[i] && r[j] == acc[j];
        }
      }
    case Some(existing) =>
      if Priority(meta.source) > Priority(existing.source) {
        var rest := Remove(acc, existing);
        RemoveKeepsDistinct(acc, existing);
        RemoveLookup(acc, existing, n);
        RemoveLookup(acc, existing, meta.variableName);
        LookupAppend(rest, meta, n);
        forall i, j | 0 <= i < j < |r| ensures r[i].variableName != r[j].variableName {
          if j == |rest| {
            assert r[i] == rest[i];
            LookupDistinct(rest, i);
          } else {
            assert r[i] == rest[i] && r[j] == rest[j];
          }
        }
      }
  }

  lemma {:induction false} NamedAppend(s: seq<VariableMetadata>, x: VariableMetadata, n: string)
    ensures Named(s + [x], n) == Named(s, n) + (if x.variableName == n then [x] else [])
  {
    assert (s + [x])[..|s + [x]| - 1] == s;
  }

  /** The merge keeps, for every name it has seen, exactly one record: the
      earliest of maximal priority; and it keeps nothing else. */
  lemma {:induction false} DedupKeepsBest(all: seq<VariableMetadata>)
    ensures DistinctNames(Dedup(all))
    ensures forall n :: Named(all, n) == [] ==> Lookup(Dedup(all), n) == None
    ensures forall n :: Named(all, n) != [] ==> Lookup(Dedup(all), n) == Some(Best(Named(all, n)))
    decreases |all|
  {
    if all != [] {
      var init := all[..|all| - 1];
      var x := all[|all| - 1];
      assert all == init + [x];
      DedupKeepsBest(init);
      var acc := Dedup(init);
      assert Dedup(all) == DedupStep(acc, x);
      forall n
        ensures Named(all, n) == [] ==> Lookup(Dedup(all), n) == None
        ensures Named(all, n) != [] ==> Lookup(Dedup(all), n) == Some(Best(Named(all, n)))
      {
        BestAfterStep(acc, init, x, n);
      }
      DedupStepLookup(acc, x, x.variableName);
    }
  }

  /** One merge step keeps, for the name `n`, the best record seen so far. */
  lemma BestAfterStep(acc: seq<VariableMetadata>, init: seq<VariableMetadata>, x: VariableMetadata, n: string)
    requires DistinctNames(acc)
    requires Named(init, n) == [] ==> Lookup(acc, n) == None
    requires Named(init, n) != [] ==> Lookup(acc, n) == Some(Best(Named(init, n)))
    ensures Named(init + [x], n) == [] ==> Lookup(DedupStep(acc, x), n) == None
    ensures Named(init + [x], n) != [] ==> Lookup(DedupStep(acc, x), n) == Some(Best(Named(init + [x], n)))
  {
    DedupStepLookup(acc, x, n);
    NamedAppend(init, x, n);
    if n == x.variableName && Named(init, n) != [] {
      var s := Named(init, n) + [x];
      assert s[..|s| - 1] == Named(init, n);
    }
  }

  /** Every gathered name is present in the merged list, once. */
  lemma {:induction false} DedupCoversInput(all: seq<VariableMetadata>, i: int)
    requires 0 <= i < |all|
    ensures Lookup(Dedup(all), all[i].variableName).Some?
  {
    DedupKeepsBest(all);
  }

  /** A record that replaces an earlier one is moved to the end. */
  lemma ReplacementMovesToEnd(acc: seq<VariableMetadata>, meta: VariableMetadata)
    requires Lookup(acc, meta.variableName).Some?
    requires Priority(meta.source) > Priority(Lookup(acc, meta.variableName).value.source)
    ensures var r := DedupStep(acc, meta); |r| == |acc| && r[|r| - 1] == meta
  {
  }

  /** `seen` maps each name of `unique` to the record kept for it. */
  ghost predicate SeenMatches(seen: map<string, VariableMetadata>, unique: seq<VariableMetadata>) {
    && (forall n :: n in seen <==> Lookup(unique, n).Some?)
    && (forall n :: n in seen ==> Lookup(unique, n) == Some(seen[n]))
  }

  /** The merge loop of `fetch_all_sources`, with `seen` and `unique_metadata`. */
  method DedupByPriority(all: seq<VariableMetadata>) returns (unique: seq<VariableMetadata>)
    ensures unique == Dedup(all)
    ensures DistinctNames(unique)
  {
    var seen: map<string, VariableMetadata> := map[];
    unique := [];
    var i := 0;
    while i < |all|
      invariant 0 <= i <= |all|
      invariant unique == Dedup(all[..i])
      invariant DistinctNames(unique)
      invariant SeenMatches(seen, unique)
    {
      assert all[..i + 1][..i] == all[..i];
      unique, seen := MergeRecord(unique, seen, all[i]);
      i := i + 1;
    }
    assert all[..i] == all;
  }

  /** One pass of the merge loop: a new name is appended, a record of
      higher priority replaces the kept one and moves to the end, anything
      else is dropped. */
  method MergeRecord(unique: seq<VariableMetadata>, seen: map<string, VariableMetadata>, meta: VariableMetadata)
    returns (unique': seq<VariableMetadata>, seen': map<string, VariableMetadata>)
    requires DistinctNames(unique) && SeenMatches(seen, unique)
    ensures unique' == DedupStep(unique, meta)
    ensures DistinctNames(unique') && SeenMatches(seen', unique')
  {
    DedupStepLookup(unique, meta, meta.variableName);
    forall n ensures Lookup(DedupStep(unique, meta), n) == (if n != meta.variableName then Lookup(unique, n)
            else if Lookup(unique, n).None? then Some(meta)
            else if Priority(meta.source) > Priority(Lookup(unique, n).value.source) then Some(meta)
            else Lookup(unique, n)) {
      DedupStepLookup(unique, meta, n);
    }
    unique', seen' := unique, seen;
    if meta.variableName !in seen {
      seen' := seen[meta.variableName := meta];
      unique' := unique + [meta];
    } else {
      var existing := seen[meta.variableName];
      if Priority(meta.source) > Priority(existing.source) {
        unique' := Remove(unique, existing);
        seen' := seen[meta.variableName := meta];
        unique' := unique' + [meta];
      }
    }
  }

  /** The records every source that did not fail returned, in source order. */
  function Gathered(results: seq<Option<seq<VariableMetadata>>>): seq<VariableMetadata> {
    if results == [] then []
    else (match results[0] case Some(xs) => xs case None => []) + Gathered(results[1..])
  }

  /** The outcomes of the sources that answered, concatenated in source
      order; a source that raised contributes nothing. */
  method GatherResults(results: seq<Option<seq<VariableMetadata>>>) returns (allMetadata: seq<VariableMetadata>)
    ensures allMetadata == Gathered(results)
  {
    allMetadata := [];
    var i := 0;
    while i < |results|
      invariant 0 <= i <= |results|
      invariant allMetadata + Gathered(results[i..]) == Gathered(results)
    {
      assert results[i..][1..] == results[i + 1..];
      if results[i].Some? {
        allMetadata := allMetadata + results[i].value;
      }
      i := i + 1;
    }
    assert results[i..] == [];
  }

  /** `fetch_all_sources`: a non-empty cached list is returned as is;
      otherwise the outcomes of the three sources (`None` when a source
      raised) are merged, cached at `storedAt` and returned. The cache key is
      computed by the caller (a hash of the query, not modelled). */
  method FetchAllSources(cache: MetadataCache<seq<VariableMetadata>>, cacheKey: string, now: real,
                         results: seq<Option<seq<VariableMetadata>>>, storedAt: real)
    returns (merged: seq<VariableMetadata>)
    modifies cache
    ensures var cached := CacheLookup(old(cache.cache), cacheKey, now, cache.ttlSeconds);
            if cached.Some? && cached.value != [] then
              merged == cached.value && cache.cache == old(cache.cache)
            else
              && merged == Dedup(Gathered(results))
              && cache.cache == CacheAfterLookup(old(cache.cache), cacheKey, now, cache.ttlSeconds)
                                  [cacheKey := (storedAt, merged)]
  {
    var cached := cache.Get(cacheKey, now);
    if cached.Some? && cached.value != [] {
      return cached.value;
    }
    ghost var afterGet := cache.cache;
    var allMetadata := GatherResults(results);
    merged := DedupByPriority(allMetadata);
    cache.Set(cacheKey, merged, storedAt);
    assert afterGet == CacheAfterLookup(old(cache.cache), cacheKey, now, cache.ttlSeconds);
    assert merged == Dedup(Gathered(results));
  }
}
