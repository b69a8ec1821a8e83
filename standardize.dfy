/** `_standardize_variable_names` and `_filter_non_variables`: variables are
    renamed to their canonical names and merged by name (citations united,
    a range with a mean and an informative distribution filled in from
    later duplicates), split back by role, and study statistics are then
    dropped. */
module Standardization {
  import opened Common
  import opened Papers
  import Entities
  import CanonicalNames

  // ---------------------------------------------------------------------
  // Merging duplicates

  /** A range that carries a mean. */
  predicate HasMean(r: Option<Range>) {
    r.Some? && r.value.mean.Some?
  }

  /** A distribution other than empty or "unknown". */
  predicate Informative(d: string) {
    d != "" && d != "unknown"
  }

  /** `list(set(a) | set(b))`: every citation of either, once each. The
      order of the source's set is not defined; the model keeps them in the
      order they are first met. */
  function UnionCitations(a: seq<string>, b: seq<string>): (r: seq<string>)
    ensures forall x :: x in r <==> x in a || x in b
    ensures NoRepeats(r)
  {
    Entities.AddNew(Entities.AddNew([], a), b)
  }

  /** A later duplicate `v` merged into the entry: citations united; its
      range taken when it has a mean and the entry's has none; its
      distribution taken when it is informative and the entry's is not.
      Everything else stays the entry's. */
  function MergeInto(existing: Variable, v: Variable): Variable {
    existing.(
      citations := UnionCitations(existing.citations, v.citations),
      range := if HasMean(v.range) && !HasMean(existing.range) then v.range else existing.range,
      distribution := if Informative(v.distribution) && !Informative(existing.distribution)
                      then v.distribution else existing.distribution)
  }

  /** The first entry with the given name. */
  function FindName(d: seq<Variable>, name: string): (r: Option<nat>)
    ensures r.Some? ==> (r.value < |d| && d[r.value].name == name
                         && forall j :: 0 <= j < r.value ==> d[j].name != name)
    ensures r.None? <==> forall j :: 0 <= j < |d| ==> d[j].name != name
  {
    if d == [] then None
    else if d[0].name == name then Some(0)
    else match FindName(d[1..], name)
      case None => None
      case Some(k) => Some(k + 1)
  }

  function Names(d: seq<Variable>): (r: seq<string>)
    ensures |r| == |d| && forall k :: 0 <= k < |d| ==> r[k] == d[k].name
  {
    if d == [] then [] else [d[0].name] + Names(d[1..])
  }

  lemma {:induction false} NamesAppend(a: seq<Variable>, b: seq<Variable>)
    ensures Names(a + b) == Names(a) + Names(b)
    decreases |a|
  {
    if a == [] {
      assert a + b == b;
    } else {
      assert (a + b)[1..] == a[1..] + b;
      NamesAppend(a[1..], b);
    }
  }

  /** The canonical name of a variable. */
  function Canon(v: Variable, entities: seq<string>): string {
    CanonicalNames.FindCanonicalName(v.name, entities)
  }

  /** The deduplicated dictionary's values, in insertion order: the first
      variable of each canonical name, renamed, with the later ones of that
      name merged into it. */
  function Dedup(vars: seq<Variable>, entities: seq<string>): seq<Variable> {
    if vars == [] then []
    else
      var d := Dedup(vars[..|vars| - 1], entities);
      var v := vars[|vars| - 1];
      var c := Canon(v, entities);
      match FindName(d, c)
      case None => d + [v.(name := c)]
      case Some(i) => d[i := MergeInto(d[i], v)]
  }

  /** The loop of `_standardize_variable_names` over the variables and then
      the confounders. */
  method Deduplicate(vars: seq<Variable>, entities: seq<string>) returns (d: seq<Variable>)
    ensures d == Dedup(vars, entities)
  {
    d := [];
    var i := 0;
    while i < |vars|
      invariant 0 <= i <= |vars|
      invariant d == Dedup(vars[..i], entities)
    {
      DedupSnoc(vars, i, entities);
      d := AddVariable(d, vars[i], entities);
      i := i + 1;
    }
    assert vars[..|vars|] == vars;
  }

  /** One pass of the loop: the variable is merged into the entry of its
      canonical name, or added under that name when there is none. */
  method AddVariable(d: seq<Variable>, v: Variable, entities: seq<string>) returns (d': seq<Variable>)
    ensures d' == match FindName(d, Canon(v, entities))
                  case None => d + [v.(name := Canon(v, entities))]
                  case Some(k) => d[k := MergeInto(d[k], v)]
  {
    var c := CanonicalNames.FindCanonicalName(v.name, entities);
    var found := FindName(d, c);
    if found.None? {
      d' := d + [v.(name := c)];
    } else {
      var k := found.value;
      d' := d[k := MergeInto(d[k], v)];
    }
  }

  /** One more variable is merged into the entry of its canonical name,
      or appended under that name when there is none. */
  lemma DedupSnoc(vars: seq<Variable>, i: nat, entities: seq<string>)
    requires i < |vars|
    ensures var d := Dedup(vars[..i], entities);
      var c := Canon(vars[i], entities);
      Dedup(vars[..i + 1], entities)
        == match FindName(d, c)
           case None => d + [vars[i].(name := c)]
           case Some(k) => d[k := MergeInto(d[k], vars[i])]
  {
    assert vars[..i + 1][..i] == vars[..i];
  }

  // ---------------------------------------------------------------------
  // What the deduplicated entries hold

  /** The variables whose canonical name is `c`, in order. */
  function Group(vars: seq<Variable>, entities: seq<string>, c: string): (g: seq<Variable>)
    ensures |g| <= |vars|
    ensures forall v :: v in g ==> v in vars && Canon(v, entities) == c
  {
    if vars == [] then []
    else
      var v := vars[|vars| - 1];
      Group(vars[..|vars| - 1], entities, c) + (if Canon(v, entities) == c then [v] else [])
  }

  /** The first variable of a group with the later ones merged into it. */
  function MergeGroup(g: seq<Variable>): Variable
    requires |g| > 0
  {
    if |g| == 1 then g[0] else MergeInto(MergeGroup(g[..|g| - 1]), g[|g| - 1])
  }

  /** The entries' names are distinct. */
  lemma {:induction false} DedupNamesDistinct(vars: seq<Variable>, entities: seq<string>)
    ensures NoRepeats(Names(Dedup(vars, entities)))
    decreases |vars|
  {
    if vars != [] {
      var d := Dedup(vars[..|vars| - 1], entities);
      DedupNamesDistinct(vars[..|vars| - 1], entities);
      var v := vars[|vars| - 1];
      var c := Canon(v, entities);
      assert Dedup(vars, entities) == (match FindName(d, c)
                                        case None => d + [v.(name := c)]
                                        case Some(i) => d[i := MergeInto(d[i], v)]);
      match FindName(d, c)
      case None =>
        NamesAppend(d, [v.(name := c)]);
        NoRepeatsSnoc(Names(d), c);
      case Some(i) =>
        var d' := d[i := MergeInto(d[i], v)];
        assert Names(d') == Names(d);
    }
  }

  /** The entry named `c` is the merge of the group of `c`, renamed; there is
      one exactly when some variable's canonical name is `c`. */
  lemma {:induction false} DedupEntry(vars: seq<Variable>, entities: seq<string>, c: string)
    ensures var d := Dedup(vars, entities);
      var g := Group(vars, entities, c);
      && (FindName(d, c).Some? <==> |g| > 0)
      && (|g| > 0 ==> d[FindName(d, c).value] == MergeGroup(g).(name := c))
    decreases |vars|
  {
    if vars != [] {
      var init := vars[..|vars| - 1];
      DedupEntry(init, entities, c);
      var v := vars[|vars| - 1];
      if Canon(v, entities) == c {
        DedupStepSame(init, v, entities, c);
      } else {
        DedupStepOther(init, v, entities, c);
      }
    }
  }

  /** A variable of canonical name `c` opens or merges into the entry `c`. */
  lemma {:induction false} DedupStepSame(init: seq<Variable>, v: Variable, entities: seq<string>, c: string)
    requires Canon(v, entities) == c
    requires var d := Dedup(init, entities);
      var g := Group(init, entities, c);
      && (FindName(d, c).Some? <==> |g| > 0)
      && (|g| > 0 ==> d[FindName(d, c).value] == MergeGroup(g).(name := c))
    ensures var vars := init + [v];
      var d := Dedup(vars, entities);
      var g := Group(vars, entities, c);
      && FindName(d, c).Some? && |g| > 0
      && d[FindName(d, c).value] == MergeGroup(g).(name := c)
  {
    var d := Dedup(init, entities);
    var g := Group(init, entities, c);
    DedupSameEntry(init, v, entities, c);
    GroupSame(init, v, entities, c);
    if FindName(d, c).None? {
      assert g == [];
      assert [v][..0] == [];
    } else {
      assert (g + [v])[..|g + [v]| - 1] == g;
      assert MergeGroup(g + [v]) == MergeInto(MergeGroup(g), v);
    }
  }

  /** A variable of canonical name `c` opens the entry `c` at the end, or
      merges into the one already there. */
  lemma {:induction false} DedupSameEntry(init: seq<Variable>, v: Variable, entities: seq<string>, c: string)
    requires Canon(v, entities) == c
    ensures var d := Dedup(init, entities);
      var d' := Dedup(init + [v], entities);
      && (FindName(d, c).None? ==> FindName(d', c) == Some(|d|) && d'[|d|] == v.(name := c))
      && (FindName(d, c).Some? ==>
            FindName(d', c) == FindName(d, c) && d'[FindName(d, c).value] == MergeInto(d[FindName(d, c).value], v))
  {
    var vars := init + [v];
    assert vars[..|vars| - 1] == init && vars[|vars| - 1] == v;
    var d := Dedup(init, entities);
    match FindName(d, c)
    case None =>
      var d' := d + [v.(name := c)];
      assert d' == Dedup(vars, entities);
      FindNameAppend(d, v.(name := c), c);
    case Some(i) =>
      var d' := d[i := MergeInto(d[i], v)];
      assert d' == Dedup(vars, entities);
      FindNameSameUpTo(d, d', c);
  }

  /** A variable of canonical name `c` joins the end of the group of `c`. */
  lemma GroupSame(init: seq<Variable>, v: Variable, entities: seq<string>, c: string)
    requires Canon(v, entities) == c
    ensures Group(init + [v], entities, c) == Group(init, entities, c) + [v]
  {
    var vars := init + [v];
    assert vars[..|vars| - 1] == init && vars[|vars| - 1] == v;
  }

  /** A variable of another canonical name leaves the entry `c` alone. */
  lemma {:induction false} DedupStepOther(init: seq<Variable>, v: Variable, entities: seq<string>, c: string)
    requires Canon(v, entities) != c
    requires var d := Dedup(init, entities);
      var g := Group(init, entities, c);
      && (FindName(d, c).Some? <==> |g| > 0)
      && (|g| > 0 ==> d[FindName(d, c).value] == MergeGroup(g).(name := c))
    ensures var vars := init + [v];
      var d := Dedup(vars, entities);
      var g := Group(vars, entities, c);
      && (FindName(d, c).Some? <==> |g| > 0)
      && (|g| > 0 ==> d[FindName(d, c).value] == MergeGroup(g).(name := c))
  {
    DedupOtherKeeps(init, v, entities, c);
    GroupOther(init, v, entities, c);
  }

  /** Adding a variable of another canonical name moves neither the entry
      `c` nor its content. */
  lemma {:induction false} DedupOtherKeeps(init: seq<Variable>, v: Variable, entities: seq<string>, c: string)
    requires Canon(v, entities) != c
    ensures var d := Dedup(init, entities);
      var d' := Dedup(init + [v], entities);
      && FindName(d', c) == FindName(d, c)
      && (FindName(d, c).Some? ==> d'[FindName(d, c).value] == d[FindName(d, c).value])
  {
    var vars := init + [v];
    assert vars[..|vars| - 1] == init && vars[|vars| - 1] == v;
    var d := Dedup(init, entities);
    var cv := Canon(v, entities);
    match FindName(d, cv)
    case None =>
      var d' := d + [v.(name := cv)];
      assert d' == Dedup(vars, entities);
      FindNameSameUpTo(d, d', c);
    case Some(i) =>
      var d' := d[i := MergeInto(d[i], v)];
      assert d' == Dedup(vars, entities);
      FindNameSameUpTo(d, d', c);
  }

  /** A variable of another canonical name does not join the group of `c`. */
  lemma GroupOther(init: seq<Variable>, v: Variable, entities: seq<string>, c: string)
    requires Canon(v, entities) != c
    ensures Group(init + [v], entities, c) == Group(init, entities, c)
  {
    var vars := init + [v];
    assert vars[..|vars| - 1] == init && vars[|vars| - 1] == v;
  }

  /** A name not yet present is found at the entry appended for it. */
  lemma {:induction false} FindNameAppend(d: seq<Variable>, x: Variable, c: string)
    requires FindName(d, c).None? && x.name == c
    ensures FindName(d + [x], c) == Some(|d|)
    decreases |d|
  {
    if d != [] {
      assert (d + [x])[1..] == d[1..] + [x];
      FindNameAppend(d[1..], x, c);
    }
  }

  /** Lookups agree on two lists whose names agree up to the length of the
      first. */
  lemma {:induction false} FindNameSameUpTo(d: seq<Variable>, d': seq<Variable>, c: string)
    requires |d| <= |d'|
    requires forall j :: 0 <= j < |d| ==> d'[j].name == d[j].name
    requires |d| < |d'| ==> FindName(d, c).Some? || d'[|d|].name != c
    requires |d'| <= |d| + 1
    ensures FindName(d', c) == FindName(d, c)
    decreases |d|
  {
    if d != [] && d[0].name != c {
      FindNameSameUpTo(d[1..], d'[1..], c);
    }
  }

  /** The merged entry keeps the first variable's name, type, role,
      relationship, units and reasoning. */
  lemma {:induction false} MergeGroupKeepsFirst(g: seq<Variable>)
    requires |g| > 0
    ensures var m := MergeGroup(g);
      && m.name == g[0].name && m.vtype == g[0].vtype && m.role == g[0].role
      && m.relationship == g[0].relationship && m.units == g[0].units && m.reasoning == g[0].reasoning
    decreases |g|
  {
    if |g| > 1 {
      MergeGroupKeepsFirst(g[..|g| - 1]);
    }
  }

  /** Some variable of the group cites `x`. */
  predicate CitedIn(g: seq<Variable>, x: string) {
    |g| > 0 && (CitedIn(g[..|g| - 1], x) || x in g[|g| - 1].citations)
  }

  /** The merged entry cites exactly what some variable of the group cites. */
  lemma {:induction false} MergeGroupCitations(g: seq<Variable>, x: string)
    requires |g| > 0
    ensures x in MergeGroup(g).citations <==> CitedIn(g, x)
    decreases |g|
  {
    if |g| > 1 {
      MergeGroupCitations(g[..|g| - 1], x);
    } else {
      assert g[..0] == [];
    }
  }

  /** The first range with a mean in the group. */
  function FirstMeanRange(g: seq<Variable>): (r: Option<Range>)
    ensures r.Some? ==> HasMean(Some(r.value))
  {
    if g == [] then None
    else if HasMean(g[0].range) then Some(g[0].range.value)
    else FirstMeanRange(g[1..])
  }

  lemma {:induction false} FirstMeanRangeSnoc(g: seq<Variable>, v: Variable)
    ensures FirstMeanRange(g + [v]) ==
      if FirstMeanRange(g).Some? then FirstMeanRange(g)
      else if HasMean(v.range) then Some(v.range.value) else None
    decreases |g|
  {
    if g == [] {
      assert [v][1..] == [];
    } else {
      assert (g + [v])[1..] == g[1..] + [v];
      FirstMeanRangeSnoc(g[1..], v);
    }
  }

  /** The merged entry's range is the first range with a mean in the group,
      or the first variable's range when none has one. */
  lemma {:induction false} MergeGroupRange(g: seq<Variable>)
    requires |g| > 0
    ensures MergeGroup(g).range ==
      match FirstMeanRange(g) case Some(r) => Some(r) case None => g[0].range
    decreases |g|
  {
    if |g| > 1 {
      var init := g[..|g| - 1];
      MergeGroupRange(init);
      assert g == init + [g[|g| - 1]];
      FirstMeanRangeSnoc(init, g[|g| - 1]);
      assert init[0] == g[0];
    }
  }

  /** The first informative distribution in the group. */
  function FirstInformative(g: seq<Variable>): (r: Option<string>)
    ensures r.Some? ==> Informative(r.value)
  {
    if g == [] then None
    else if Informative(g[0].distribution) then Some(g[0].distribution)
    else FirstInformative(g[1..])
  }

  lemma {:induction false} FirstInformativeSnoc(g: seq<Variable>, v: Variable)
    ensures FirstInformative(g + [v]) ==
      if FirstInformative(g).Some? then FirstInformative(g)
      else if Informative(v.distribution) then Some(v.distribution) else None
    decreases |g|
  {
    if g == [] {
      assert [v][1..] == [];
    } else {
      assert (g + [v])[1..] == g[1..] + [v];
      FirstInformativeSnoc(g[1..], v);
    }
  }

  /** The merged entry's distribution is the first informative one in the
      group, or the first variable's when none is informative. */
  lemma {:induction false} MergeGroupDistribution(g: seq<Variable>)
    requires |g| > 0
    ensures MergeGroup(g).distribution ==
      match FirstInformative(g) case Some(d) => d case None => g[0].distribution
    decreases |g|
  {
    if |g| > 1 {
      var init := g[..|g| - 1];
      MergeGroupDistribution(init);
      assert g == init + [g[|g| - 1]];
      FirstInformativeSnoc(init, g[|g| - 1]);
      assert init[0] == g[0];
    }
  }

  // ---------------------------------------------------------------------
  // Splitting by role

  const Confounder := "confounder"

  /** The variables that are not confounders, in order. */
  function WithRole(d: seq<Variable>): seq<Variable> {
    if d == [] then [] else (if d[0].role != Confounder then [d[0]] else []) + WithRole(d[1..])
  }

  /** The confounders, in order. */
  function ConfoundersOf(d: seq<Variable>): seq<Variable> {
    if d == [] then [] else (if d[0].role == Confounder then [d[0]] else []) + ConfoundersOf(d[1..])
  }

  /** The split keeps exactly the non-confounders on one side and exactly
      the confounders on the other. */
  lemma {:induction false} SplitMembers(d: seq<Variable>)
    ensures forall v :: v in WithRole(d) <==> v in d && v.role != Confounder
    ensures forall v :: v in ConfoundersOf(d) <==> v in d && v.role == Confounder
    decreases |d|
  {
    if d != [] {
      SplitMembers(d[1..]);
      assert d == [d[0]] + d[1..];
    }
  }

  /** Splitting a concatenation splits each part. */
  lemma {:induction false} WithRoleAppend(a: seq<Variable>, b: seq<Variable>)
    ensures WithRole(a + b) == WithRole(a) + WithRole(b)
    decreases |a|
  {
    if a != [] {
      assert (a + b)[1..] == a[1..] + b;
      WithRoleAppend(a[1..], b);
    } else {
      assert a + b == b;
    }
  }

  lemma {:induction false} ConfoundersAppend(a: seq<Variable>, b: seq<Variable>)
    ensures ConfoundersOf(a + b) == ConfoundersOf(a) + ConfoundersOf(b)
    decreases |a|
  {
    if a != [] {
      assert (a + b)[1..] == a[1..] + b;
      ConfoundersAppend(a[1..], b);
    } else {
      assert a + b == b;
    }
  }

  /** Filing one more variable adds it to exactly one side. */
  lemma {:induction false} SplitSnoc(vars: seq<Variable>, i: nat)
    requires i < |vars|
    ensures WithRole(vars[..i + 1]) == WithRole(vars[..i]) + (if vars[i].role != Confounder then [vars[i]] else [])
    ensures ConfoundersOf(vars[..i + 1]) == ConfoundersOf(vars[..i]) + (if vars[i].role == Confounder then [vars[i]] else [])
  {
    assert vars[..i + 1] == vars[..i] + [vars[i]];
    WithRoleAppend(vars[..i], [vars[i]]);
    ConfoundersAppend(vars[..i], [vars[i]]);
  }

  /** Splitting loses nothing and duplicates nothing. */
  lemma {:induction false} SplitPartitions(d: seq<Variable>)
    ensures |WithRole(d)| + |ConfoundersOf(d)| == |d|
    decreases |d|
  {
    if d != [] {
      SplitPartitions(d[1..]);
    }
  }

  /** In a list whose names are distinct, the head's name is nowhere in the
      tail, and the tail's names are distinct. */
  lemma {:induction false} HeadNameFresh(d: seq<Variable>)
    requires d != [] && NoRepeats(Names(d))
    ensures forall w :: w in d[1..] ==> w.name != d[0].name
    ensures NoRepeats(Names(d[1..]))
  {
    forall w | w in d[1..]
      ensures w.name != d[0].name
    {
      var j :| 0 <= j < |d| - 1 && d[1..][j] == w;
      assert Names(d)[0] == d[0].name && Names(d)[j + 1] == w.name;
    }
    forall i, j | 0 <= i < j < |d| - 1
      ensures Names(d[1..])[i] != Names(d[1..])[j]
    {
      assert Names(d)[i + 1] != Names(d)[j + 1];
    }
  }

  /** Two lists with distinct names and no name in common have distinct
      names together. */
  lemma {:induction false} ConcatDistinct(a: seq<Variable>, b: seq<Variable>)
    requires NoRepeats(Names(a)) && NoRepeats(Names(b))
    requires forall x, y :: x in a && y in b ==> x.name != y.name
    ensures NoRepeats(Names(a + b))
  {
    NamesAppend(a, b);
    forall i, j | 0 <= i < |a| && 0 <= j < |b|
      ensures Names(a)[i] != Names(b)[j]
    {
      assert a[i] in a && b[j] in b;
    }
    NoRepeatsConcat(Names(a), Names(b));
  }

  /** Of two entries with the same name in a list with distinct names, both
      are the same entry. */
  lemma {:induction false} SameNameSameEntry(d: seq<Variable>, x: Variable, y: Variable)
    requires NoRepeats(Names(d)) && x in d && y in d && x.name == y.name
    ensures x == y
  {
    var i :| 0 <= i < |d| && d[i] == x;
    var j :| 0 <= j < |d| && d[j] == y;
    var n := Names(d);
    assert n[i] == x.name && n[j] == y.name;
    NoRepeatsIndex(n, i, j);
  }

  /** Keeping the non-confounders keeps the names distinct. */
  lemma {:induction false} WithRoleDistinct(d: seq<Variable>)
    requires NoRepeats(Names(d))
    ensures NoRepeats(Names(WithRole(d)))
    decreases |d|
  {
    if d != [] {
      HeadNameFresh(d);
      WithRoleDistinct(d[1..]);
      SplitMembers(d[1..]);
      if d[0].role != Confounder {
        ConcatDistinct([d[0]], WithRole(d[1..]));
      }
    }
  }

  /** Keeping the confounders keeps the names distinct. */
  lemma {:induction false} ConfoundersDistinct(d: seq<Variable>)
    requires NoRepeats(Names(d))
    ensures NoRepeats(Names(ConfoundersOf(d)))
    decreases |d|
  {
    if d != [] {
      HeadNameFresh(d);
      ConfoundersDistinct(d[1..]);
      SplitMembers(d[1..]);
      if d[0].role == Confounder {
        ConcatDistinct([d[0]], ConfoundersOf(d[1..]));
      }
    }
  }

  /** No name is both a variable's and a confounder's after the split. */
  lemma {:induction false} SplitDisjoint(d: seq<Variable>)
    requires NoRepeats(Names(d))
    ensures forall x, y :: x in WithRole(d) && y in ConfoundersOf(d) ==> x.name != y.name
  {
    SplitMembers(d);
    forall x, y | x in WithRole(d) && y in ConfoundersOf(d)
      ensures x.name != y.name
    {
      if x.name == y.name {
        SameNameSameEntry(d, x, y);
      }
    }
  }

  /** `_standardize_variable_names`: the new variables and confounders, in
      the order their names were first met. */
  method StandardizeVariableNames(variables: seq<Variable>, confounders: seq<Variable>, entities: seq<string>)
    returns (newVariables: seq<Variable>, newConfounders: seq<Variable>)
    ensures newVariables == WithRole(Dedup(variables + confounders, entities))
    ensures newConfounders == ConfoundersOf(Dedup(variables + confounders, entities))
  {
    var d := Deduplicate(variables + confounders, entities);
    newVariables := WithRole(d);
    newConfounders := ConfoundersOf(d);
  }

  // ---------------------------------------------------------------------
  // _filter_non_variables

  /** The keywords `is_study_statistic` looks for in a name, in order. */
  const StatisticKeywords: seq<string> := [
    "hazard ratio", "hr", "odds ratio", "or", "relative risk", "rr",
    "p-value", "p value", "confidence interval", "ci",
    "effect size", "correlation coefficient", "risk ratio",
    "mortality", "survival", "incidence", "prevalence"]

  /** The keywords whose presence settles the question. */
  const Abbreviations: seq<string> := ["hr", "or", "rr", "p-value", "ci"]

  /** A keyword found in the name makes the variable a statistic only when
      it mentions mortality or survival or is one of the abbreviations. */
  predicate KeywordFlags(keyword: string) {
    Contains(keyword, "mortality") || Contains(keyword, "survival") || keyword in Abbreviations
  }

  /** The keyword loop: some keyword in the name flags it. */
  predicate FlaggedByKeywords(nameLower: string, keywords: seq<string>) {
    |keywords| > 0 &&
    ((Contains(nameLower, keywords[0]) && KeywordFlags(keywords[0])) || FlaggedByKeywords(nameLower, keywords[1..]))
  }

  /** Python truthiness of an optional number: present and non-zero. */
  predicate Truthy(x: Option<real>) {
    x.Some? && x.value != 0.0
  }

  /** A range that looks like a hazard ratio: min in [0.3, 1], max in
      [1, 3], mean in [0.7, 1.5]. */
  predicate RatioLikeRange(r: Option<Range>) {
    r.Some? && Truthy(r.value.min) && Truthy(r.value.max) && Truthy(r.value.mean)
    && 0.3 <= r.value.min.value <= 1.0 && 1.0 <= r.value.max.value <= 3.0
    && 0.7 <= r.value.mean.value <= 1.5
  }

  /** `is_study_statistic` as written. */
  predicate IsStudyStatistic(v: Variable) {
    FlaggedByKeywords(Lower(v.name), StatisticKeywords) || RatioLikeRange(v.range)
  }

  lemma {:induction false} MissingCharNotContained(s: string, pat: string, c: char)
    requires c in pat && c !in s
    ensures !Contains(s, pat)
  {
    var k :| 0 <= k < |pat| && pat[k] == c;
    forall i | 0 <= i <= |s| - |pat|
      ensures !OccursAt(s, pat, i)
    {
      assert s[i + k] in s;
      assert s[i..i + |pat|][k] == s[i + k];
    }
  }

  const FlaggingSeven: seq<string> := ["hr", "or", "rr", "p-value", "ci", "mortality", "survival"]

  /** The keywords that never flag a name. */
  const NonFlagging: seq<string> := [
    "hazard ratio", "odds ratio", "relative risk", "p value", "confidence interval",
    "effect size", "correlation coefficient", "risk ratio", "incidence", "prevalence"]

  lemma {:induction false} NonFlaggingKeyword(kw: string)
    requires kw in NonFlagging
    ensures !KeywordFlags(kw)
  {
    NoMortality(kw);
    NoSurvival(kw);
  }

  lemma {:induction false} NoMortality(kw: string)
    requires kw in NonFlagging
    ensures !Contains(kw, "mortality")
  {
    MissingCharNotContained(kw, "mortality", 'm');
  }

  lemma {:induction false} NoSurvival(kw: string)
    requires kw in NonFlagging
    ensures !Contains(kw, "survival")
  {
    if kw == "p value" {
      MissingCharNotContained(kw, "survival", 's');
    } else {
      MissingCharNotContained(kw, "survival", 'u');
    }
  }

  lemma {:induction false} FlaggingKeyword(kw: string)
    requires kw in FlaggingSeven
    ensures KeywordFlags(kw)
  {
    if kw == "mortality" {
      assert OccursAt(kw, "mortality", 0);
    } else if kw == "survival" {
      assert OccursAt(kw, "survival", 0);
    }
  }

  /** The keywords of the list that flag are exactly seven. */
  lemma {:induction false} KeywordFlagsExactly(kw: string)
    requires kw in StatisticKeywords
    ensures KeywordFlags(kw) <==> kw in FlaggingSeven
  {
    if kw in FlaggingSeven {
      FlaggingKeyword(kw);
    } else {
      assert kw in NonFlagging;
      NonFlaggingKeyword(kw);
    }
  }

  /** Of the seventeen keywords only seven ever flag a name: the five
      abbreviations, "mortality" and "survival". */
  lemma {:induction false} FlaggingKeywords(nameLower: string)
    ensures FlaggedByKeywords(nameLower, StatisticKeywords) <==>
      (exists k :: k in FlaggingSeven && Contains(nameLower, k))
  {
    UnrollKeywords(nameLower, StatisticKeywords);
    if FlaggedByKeywords(nameLower, StatisticKeywords) {
      var kw :| kw in StatisticKeywords && KeywordFlags(kw) && Contains(nameLower, kw);
      KeywordFlagsExactly(kw);
    }
    if exists k :: k in FlaggingSeven && Contains(nameLower, k) {
      var k :| k in FlaggingSeven && Contains(nameLower, k);
      assert k in StatisticKeywords;
      KeywordFlagsExactly(k);
    }
  }

  /** The keyword loop flags a name exactly when some flagging keyword of
      the list occurs in it. */
  lemma {:induction false} UnrollKeywords(nameLower: string, keywords: seq<string>)
    ensures FlaggedByKeywords(nameLower, keywords) <==>
      exists kw :: kw in keywords && KeywordFlags(kw) && Contains(nameLower, kw)
    decreases |keywords|
  {
    if keywords != [] {
      UnrollKeywords(nameLower, keywords[1..]);
      assert forall kw :: kw in keywords <==> kw == keywords[0] || kw in keywords[1..];
    }
  }

  /** The list comprehension that keeps the non-statistics, in order. */
  function DropStatistics(vars: seq<Variable>, isStatistic: Variable -> bool): (r: seq<Variable>)
    ensures |r| <= |vars|
    ensures forall v :: v in r <==> v in vars && !isStatistic(v)
  {
    if vars == [] then [] else (if !isStatistic(vars[0]) then [vars[0]] else []) + DropStatistics(vars[1..], isStatistic)
  }

  /** Dropping keeps the survivors in their order: they form a subsequence. */
  lemma {:induction false} DropStatisticsOrder(vars: seq<Variable>, isStatistic: Variable -> bool, i: nat, j: nat)
    requires i < j < |vars| && !isStatistic(vars[i]) && !isStatistic(vars[j])
    ensures exists a, b :: (0 <= a < b < |DropStatistics(vars, isStatistic)|
      && DropStatistics(vars, isStatistic)[a] == vars[i] && DropStatistics(vars, isStatistic)[b] == vars[j])
    decreases |vars|
  {
    var r := DropStatistics(vars, isStatistic);
    var rest := DropStatistics(vars[1..], isStatistic);
    var head := if !isStatistic(vars[0]) then [vars[0]] else [];
    assert r == head + rest;
    if i == 0 {
      assert vars[j] == vars[1..][j - 1];
      assert vars[j] in rest;
      var b :| 0 <= b < |rest| && rest[b] == vars[j];
      assert 0 <= 0 < b + 1 < |r| && r[0] == vars[i] && r[b + 1] == vars[j];
    } else {
      DropStatisticsOrder(vars[1..], isStatistic, i - 1, j - 1);
      var a, b :| 0 <= a < b < |rest| && rest[a] == vars[1..][i - 1] && rest[b] == vars[1..][j - 1];
      assert vars[1..][i - 1] == vars[i] && vars[1..][j - 1] == vars[j];
      ShiftPair(head, rest, a, b);
      assert 0 <= a + |head| < b + |head| < |r| && r[a + |head|] == vars[i] && r[b + |head|] == vars[j];
    }
  }

  /** Two positions of `rest` move by the length of what is put before it. */
  lemma ShiftPair(head: seq<Variable>, rest: seq<Variable>, a: nat, b: nat)
    requires a < b < |rest|
    ensures a + |head| < b + |head| < |head + rest|
    ensures (head + rest)[a + |head|] == rest[a] && (head + rest)[b + |head|] == rest[b]
  {
  }

  /** Dropping keeps the names distinct. */
  lemma {:induction false} DropStatisticsDistinct(vars: seq<Variable>, isStatistic: Variable -> bool)
    requires NoRepeats(Names(vars))
    ensures NoRepeats(Names(DropStatistics(vars, isStatistic)))
    decreases |vars|
  {
    if vars != [] {
      HeadNameFresh(vars);
      DropStatisticsDistinct(vars[1..], isStatistic);
      if !isStatistic(vars[0]) {
        ConcatDistinct([vars[0]], DropStatistics(vars[1..], isStatistic));
      }
    }
  }

  /** A name that only hides "or" inside a word is dropped as written. */
  lemma {:induction false} HistoryDroppedAsWritten(v: Variable)
    requires v.name == "Smoking history"
    ensures IsStudyStatistic(v)
  {
    LowerIs(v.name, "smoking history");
    assert OccursAt("smoking history", "or", 12);
    OrFlags();
    FlaggedByKeyword("smoking history", "or");
  }

  /** The same for a hormone: "cortisol" holds "or". */
  lemma {:induction false} CortisolDroppedAsWritten(v: Variable)
    requires v.name == "Cortisol"
    ensures IsStudyStatistic(v)
  {
    LowerIs(v.name, "cortisol");
    assert OccursAt("cortisol", "or", 1);
    OrFlags();
    FlaggedByKeyword("cortisol", "or");
  }

  /** "or" is one of the keywords, and one that flags. */
  lemma OrFlags()
    ensures "or" in StatisticKeywords && KeywordFlags("or")
  {
    assert StatisticKeywords[3] == "or" && Abbreviations[1] == "or";
  }

  // ---------------------------------------------------------------------
  // The corrected test: abbreviations are matched as whole words

  /** The two-letter abbreviations, which name a statistic only as words. */
  const WordAbbreviations: seq<string> := ["hr", "or", "rr", "ci"]

  /** `is_study_statistic` with the two-letter abbreviations matched against
      the name's words instead of its substrings. */
  predicate IsStudyStatisticByWord(v: Variable) {
    var n := Lower(v.name);
    || (exists a :: a in WordAbbreviations && a in CanonicalNames.Tokens(n))
    || Contains(n, "p-value") || Contains(n, "mortality") || Contains(n, "survival")
    || RatioLikeRange(v.range)
  }

  /** A word of a text occurs in it. */
  lemma {:induction false} TokensOccur(s: string, t: string)
    requires t in CanonicalNames.TokenList(s)
    ensures Contains(s, t)
    decreases |s|
  {
    if !IsWordChar(s[0]) {
      TokensOccur(s[1..], t);
      assert s[1..1 + (|s| - 1)] == s[1..];
      ContainsSlice(s, t, 1, |s| - 1);
    } else {
      var n := CanonicalNames.WordRun(s);
      if t == s[..n] {
        assert OccursAt(s, t, 0);
      } else {
        TokensOccur(s[n..], t);
        assert s[n..n + (|s| - n)] == s[n..];
        ContainsSlice(s, t, n, |s| - n);
      }
    }
  }

  /** The corrected test only drops what the written one drops. */
  lemma {:induction false} ByWordNarrower(v: Variable)
    requires IsStudyStatisticByWord(v)
    ensures IsStudyStatistic(v)
  {
    var n := Lower(v.name);
    if exists a :: a in WordAbbreviations && a in CanonicalNames.Tokens(n) {
      var a :| a in WordAbbreviations && a in CanonicalNames.Tokens(n);
      TokensOccur(n, a);
      WordAbbreviationsFlag(a);
      FlaggedByKeyword(n, a);
    } else if Contains(n, "p-value") {
      LongKeywordsFlag();
      FlaggedByKeyword(n, "p-value");
    } else if Contains(n, "mortality") {
      LongKeywordsFlag();
      FlaggedByKeyword(n, "mortality");
    } else if Contains(n, "survival") {
      LongKeywordsFlag();
      FlaggedByKeyword(n, "survival");
    }
  }

  /** A flagging keyword of the list found in the name flags it. */
  lemma FlaggedByKeyword(n: string, kw: string)
    requires kw in StatisticKeywords && KeywordFlags(kw) && Contains(n, kw)
    ensures FlaggedByKeywords(n, StatisticKeywords)
  {
    UnrollKeywords(n, StatisticKeywords);
  }

  /** Each whole-word abbreviation is a keyword that flags. */
  lemma WordAbbreviationsFlag(a: string)
    requires a in WordAbbreviations
    ensures a in StatisticKeywords && KeywordFlags(a)
  {
    assert a == "hr" || a == "or" || a == "rr" || a == "ci";
  }

  /** The spelled-out keywords the corrected test keeps are keywords that
      flag. */
  lemma LongKeywordsFlag()
    ensures "p-value" in StatisticKeywords && KeywordFlags("p-value")
    ensures "mortality" in StatisticKeywords && KeywordFlags("mortality")
    ensures "survival" in StatisticKeywords && KeywordFlags("survival")
  {
    assert StatisticKeywords[6] == "p-value" && StatisticKeywords[13] == "mortality" && StatisticKeywords[14] == "survival";
    assert Abbreviations[3] == "p-value";
    assert OccursAt("mortality", "mortality", 0);
    assert OccursAt("survival", "survival", 0);
  }

  lemma {:induction false} WholeWordRun(s: string)
    requires forall k :: 0 <= k < |s| ==> IsWordChar(s[k])
    ensures CanonicalNames.WordRun(s) == |s|
    decreases |s|
  {
    if s != [] {
      WholeWordRun(s[1..]);
    }
  }

  /** A text made of word characters only is a single word. */
  lemma {:induction false} SingleWord(s: string)
    requires |s| > 0 && forall k :: 0 <= k < |s| ==> IsWordChar(s[k])
    ensures CanonicalNames.Tokens(s) == {s}
  {
    WholeWordRun(s);
    assert IsWordChar(s[0]);
    assert s[..|s|] == s && s[|s|..] == [];
    assert CanonicalNames.TokenList(s) == [s] + CanonicalNames.TokenList([]);
    assert CanonicalNames.TokenList(s) == [s];
  }

  /** A stand-alone abbreviation still marks a statistic. */
  lemma {:induction false} HazardRatioAbbreviationDropped(v: Variable)
    requires v.name == "HR"
    ensures IsStudyStatisticByWord(v)
  {
    var n := Lower(v.name);
    assert n == "hr";
    SingleWord(n);
    assert "hr" in WordAbbreviations && "hr" in CanonicalNames.Tokens(n);
  }

  /** A one-word name that is none of the abbreviations and mentions
      neither p-values, mortality nor survival is kept by the corrected test
      when it has no ratio-like range. */
  lemma {:induction false} SingleWordNameKept(v: Variable)
    requires |Lower(v.name)| > 0 && forall k :: 0 <= k < |v.name| ==> IsWordChar(Lower(v.name)[k])
    requires Lower(v.name) !in WordAbbreviations
    requires !Contains(Lower(v.name), "p-value") && !Contains(Lower(v.name), "mortality")
    requires !Contains(Lower(v.name), "survival") && !RatioLikeRange(v.range)
    ensures !IsStudyStatisticByWord(v)
  {
    SingleWord(Lower(v.name));
  }

  /** "Cortisol" is one word, none of the abbreviations: kept. */
  lemma {:induction false} CortisolKeptByWord(v: Variable)
    requires v.name == "Cortisol" && v.range.None?
    ensures !IsStudyStatisticByWord(v)
  {
    LowerIs("Cortisol", "cortisol");
    CortisolWordChars();
    CortisolNoKeyword();
    SingleWordNameKept(v);
  }

  /** "cortisol" is made of word characters only. */
  lemma CortisolWordChars()
    ensures forall k :: 0 <= k < |"cortisol"| ==> IsWordChar("cortisol"[k])
  {
  }

  lemma {:induction false} CortisolNoKeyword()
    ensures !Contains("cortisol", "p-value") && !Contains("cortisol", "mortality")
    ensures !Contains("cortisol", "survival") && "cortisol" !in WordAbbreviations
  {
    MissingCharNotContained("cortisol", "p-value", '-');
    MissingCharNotContained("cortisol", "mortality", 'm');
    MissingCharNotContained("cortisol", "survival", 'u');
  }

  /** `_filter_non_variables`: study statistics dropped from the variables
      and from the confounders, order kept. */
  function FilterNonVariables(variables: seq<Variable>, confounders: seq<Variable>): (r: (seq<Variable>, seq<Variable>))
    ensures forall v :: v in r.0 <==> v in variables && !IsStudyStatisticByWord(v)
    ensures forall v :: v in r.1 <==> v in confounders && !IsStudyStatisticByWord(v)
  {
    (DropStatistics(variables, IsStudyStatisticByWord), DropStatistics(confounders, IsStudyStatisticByWord))
  }

  /** `_filter_non_variables` as written, with substring matching. */
  function FilterNonVariablesAsWritten(variables: seq<Variable>, confounders: seq<Variable>): (r: (seq<Variable>, seq<Variable>))
    ensures forall v :: v in r.0 <==> v in variables && !IsStudyStatistic(v)
    ensures forall v :: v in r.1 <==> v in confounders && !IsStudyStatistic(v)
  {
    (DropStatistics(variables, IsStudyStatistic), DropStatistics(confounders, IsStudyStatistic))
  }
}
