/** The values the variable-discovery engine passes around: XML elements as
    ElementTree returns them, the LLM's XML replies located by `_extract_xml`,
    variables and their ranges, papers with their abstract and PMC sections,
    and the label rules that file abstract and full-text sections. Parsing
    XML itself is an oracle; the queries made on the parsed tree are
    modelled. */
module Papers {
  import opened Common
  import CodeFence

  // ---------------------------------------------------------------------
  // XML elements

  /** An ElementTree element: its tag, its text (`None` when it has none),
      its attributes and its child elements in document order. */
  datatype Element = Element(tag: string, text: Option<string>, attrs: map<string, string>, children: seq<Element>)

  /** The element `_extract_xml` returns when the text does not parse. */
  function EmptyElement(tag: string): Element {
    Element(tag, None, map[], [])
  }

  /** The first child with the given tag (`find("./tag")`). */
  function FirstChild(cs: seq<Element>, tag: string): (r: Option<Element>)
    ensures r.None? <==> forall c :: c in cs ==> c.tag != tag
    ensures r.Some? ==> r.value in cs && r.value.tag == tag
  {
    if cs == [] then None
    else if cs[0].tag == tag then Some(cs[0])
    else FirstChild(cs[1..], tag)
  }

  /** `findtext("./tag", default)`: the default when there is no such child,
      otherwise the child's text, "" when it has none. */
  function FindText(e: Element, tag: string, default: string): (r: string)
    ensures (forall c :: c in e.children ==> c.tag != tag) ==> r == default
  {
    match FirstChild(e.children, tag)
    case None => default
    case Some(c) => if c.text.Some? then c.text.value else ""
  }

  /** `findtext("./tag")` without a default: `None` when there is no such
      child. */
  function FindTextOpt(e: Element, tag: string): (r: Option<string>)
    ensures r.None? <==> forall c :: c in e.children ==> c.tag != tag
  {
    match FirstChild(e.children, tag)
    case None => None
    case Some(c) => if c.text.Some? then Some(c.text.value) else Some("")
  }

  /** The children with the given tag, in order (`findall("./tag")`). */
  function ChildrenTagged(cs: seq<Element>, tag: string): (r: seq<Element>)
    ensures forall x :: x in r <==> x in cs && x.tag == tag
    ensures |r| <= |cs|
  {
    if cs == [] then []
    else (if cs[0].tag == tag then [cs[0]] else []) + ChildrenTagged(cs[1..], tag)
  }

  /** `[x.text for x in e.findall("./outer/inner") if x.text]`. */
  function NestedTexts(e: Element, outer: string, inner: string): seq<string> {
    TextsOf(GrandChildren(ChildrenTagged(e.children, outer), inner))
  }

  function GrandChildren(parents: seq<Element>, tag: string): seq<Element> {
    if parents == [] then []
    else ChildrenTagged(parents[0].children, tag) + GrandChildren(parents[1..], tag)
  }

  /** The non-empty texts of the elements, in order. */
  function TextsOf(es: seq<Element>): (r: seq<string>)
    ensures forall t :: t in r ==> t != ""
    ensures |r| <= |es|
  {
    if es == [] then []
    else
      var e := es[0];
      (if e.text.Some? && e.text.value != "" then [e.text.value] else []) + TextsOf(es[1..])
  }

  /** The descendants of `e` with the given tag, in document order
      (`findall(".//tag")`); `e` itself is not included. */
  function Descendants(e: Element, tag: string): (r: seq<Element>)
    ensures forall x :: x in r ==> x.tag == tag
    decreases e, 1
  {
    DescendantsIn(e.children, tag)
  }

  function DescendantsIn(cs: seq<Element>, tag: string): (r: seq<Element>)
    ensures forall x :: x in r ==> x.tag == tag
    decreases cs, 0
  {
    if cs == [] then []
    else
      (if cs[0].tag == tag then [cs[0]] else []) + Descendants(cs[0], tag) + DescendantsIn(cs[1..], tag)
  }

  /** Every child with the tag is found by the descendant search. */
  lemma {:induction false} ChildrenAreDescendants(cs: seq<Element>, tag: string)
    ensures forall c :: c in cs && c.tag == tag ==> c in DescendantsIn(cs, tag)
    decreases cs
  {
    if cs != [] {
      ChildrenAreDescendants(cs[1..], tag);
      forall c | c in cs && c.tag == tag
        ensures c in DescendantsIn(cs, tag)
      {
        if c != cs[0] {
          assert c in cs[1..];
        }
      }
    }
  }

  /** An element that does not parse yields no text and no descendants: every
      query falls back to its default. */
  lemma EmptyElementDefaults(tag: string, child: string, default: string)
    ensures FindText(EmptyElement(tag), child, default) == default
    ensures FindTextOpt(EmptyElement(tag), child) == None
    ensures Descendants(EmptyElement(tag), child) == []
  {
  }

  // ---------------------------------------------------------------------
  // _extract_xml

  /** The text `_extract_xml` hands to the parser: the response without its
      code fence, cut from the first `<root>` to the end of the first
      `</root>` when both occur; otherwise all of it. When the closing tag
      comes before the opening one, the cut is empty. */
  function XmlPayload(text: string, rootTag: string): string {
    var t := CodeFence.StripCodeFence(text, "xml");
    var startTag := "<" + rootTag + ">";
    var endTag := "</" + rootTag + ">";
    var startIdx := Find(t, startTag);
    var endIdx := Find(t, endTag);
    if startIdx != -1 && endIdx != -1 then PySlice(t, startIdx, endIdx + |endTag|) else t
  }

  /** `_extract_xml`: the parsed payload, or an empty `root` element when it
      does not parse. */
  function ExtractXml(text: string, rootTag: string, parseXml: string -> Option<Element>): (e: Element)
    ensures parseXml(XmlPayload(text, rootTag)).None? ==> e == EmptyElement(rootTag)
  {
    match parseXml(XmlPayload(text, rootTag))
    case None => EmptyElement(rootTag)
    case Some(e) => e
  }

  /** When both tags occur, the opening one first, the payload is exactly the
      text from the first `<root>` to the end of the first `</root>`. */
  lemma {:induction false} XmlPayloadCut(text: string, rootTag: string)
    requires var t := CodeFence.StripCodeFence(text, "xml");
      Contains(t, "<" + rootTag + ">") && Contains(t, "</" + rootTag + ">")
      && Find(t, "<" + rootTag + ">") < Find(t, "</" + rootTag + ">")
    ensures var t := CodeFence.StripCodeFence(text, "xml");
      var endTag := "</" + rootTag + ">";
      var s := Find(t, "<" + rootTag + ">");
      var e := Find(t, endTag) + |endTag|;
      && XmlPayload(text, rootTag) == t[s..e]
      && StartsWith(XmlPayload(text, rootTag), "<" + rootTag + ">")
  {
    var t := CodeFence.StripCodeFence(text, "xml");
    var startTag := "<" + rootTag + ">";
    var s := Find(t, startTag);
    var e := Find(t, "</" + rootTag + ">") + |"</" + rootTag + ">"|;
    assert OccursAt(t, startTag, s);
    assert t[s..e][..|startTag|] == t[s..s + |startTag|];
  }

  /** When a tag is missing, the whole unfenced response is parsed. */
  lemma XmlPayloadWhole(text: string, rootTag: string)
    requires !Contains(CodeFence.StripCodeFence(text, "xml"), "</" + rootTag + ">")
    ensures XmlPayload(text, rootTag) == CodeFence.StripCodeFence(text, "xml")
  {
  }

  /** A closing tag before the opening one gives an empty payload, which then
      fails to parse into anything but the empty element. */
  lemma XmlPayloadReversedTags(text: string, rootTag: string)
    requires var t := CodeFence.StripCodeFence(text, "xml");
      Find(t, "<" + rootTag + ">") != -1 && Find(t, "</" + rootTag + ">") != -1
      && Find(t, "</" + rootTag + ">") + |"</" + rootTag + ">"| <= Find(t, "<" + rootTag + ">")
    ensures XmlPayload(text, rootTag) == ""
  {
  }

  // ---------------------------------------------------------------------
  // safe_float

  /** The strings `safe_float` treats as missing, after lower-casing. */
  const MissingMarkers: seq<string> := ["unknown", "n/a", "na", "none", ""]

  /** `safe_float`: `None` for a missing or empty value, for a marker of a
      missing value in any letter case, and for what `float()` rejects
      (`parseFloat` returning `None`); never an exception. */
  function SafeFloat(value: Option<string>, parseFloat: string -> Option<real>): (r: Option<real>)
    ensures r.Some? ==> value.Some? && Lower(value.value) !in MissingMarkers && parseFloat(value.value) == r
    ensures value.Some? && Lower(value.value) !in MissingMarkers ==> r == parseFloat(value.value)
  {
    if value.None? || value.value == "" || Lower(value.value) in MissingMarkers then None
    else parseFloat(value.value)
  }

  /** Every case of a missing marker is missing, whatever the parser says. */
  lemma {:induction false} SafeFloatMarkers(parseFloat: string -> Option<real>)
    ensures SafeFloat(None, parseFloat) == None
    ensures SafeFloat(Some(""), parseFloat) == None
    ensures SafeFloat(Some("Unknown"), parseFloat) == None
    ensures SafeFloat(Some("N/A"), parseFloat) == None
    ensures SafeFloat(Some("NA"), parseFloat) == None
    ensures SafeFloat(Some("None"), parseFloat) == None
  {
    LowerWordMarkers();
    LowerShortMarkers();
  }

  /** The mixed-case spellings lower-case to the markers. */
  lemma LowerWordMarkers()
    ensures Lower("Unknown") == "unknown" && Lower("None") == "none"
  {
    assert Lower("Unknown") == "unknown";
    assert Lower("None") == "none";
  }

  /** The upper-case spellings lower-case to the markers. */
  lemma LowerShortMarkers()
    ensures Lower("N/A") == "n/a" && Lower("NA") == "na"
  {
    assert Lower("N/A") == "n/a";
    assert Lower("NA") == "na";
  }

  // ---------------------------------------------------------------------
  // Variables

  datatype Range = Range(min: Option<real>, max: Option<real>, mean: Option<real>, sd: Option<real>)

  /** A variable as the engine stores it. `units` is `None` when the LLM gave
      no units element. */
  datatype Variable = Variable(
    name: string, vtype: string, distribution: string, role: string, relationship: string,
    units: Option<string>, range: Option<Range>, reasoning: string, citations: seq<string>)

  /** The variable read from one `<variable>` element of a paper's analysis,
      with the defaults of `_analyze_papers` for missing children, the range
      attributes read through `safe_float`, and the paper as its only
      citation. */
  function VariableFrom(e: Element, pmid: string, parseFloat: string -> Option<real>): Variable {
    var rangeElem := FirstChild(e.children, "range");
    Variable(
      FindText(e, "name", ""),
      FindText(e, "type", "continuous"),
      FindText(e, "distribution", "unknown"),
      FindText(e, "role", "predictor"),
      FindText(e, "relationship", "unknown"),
      FindTextOpt(e, "units"),
      match rangeElem
      case None => None
      case Some(r) =>
        Some(Range(SafeFloat(Attr(r, "min"), parseFloat), SafeFloat(Attr(r, "max"), parseFloat),
                   SafeFloat(Attr(r, "mean"), parseFloat), SafeFloat(Attr(r, "sd"), parseFloat))),
      FindText(e, "reasoning", ""),
      ["PMID:" + pmid])
  }

  /** A variable cites exactly its paper, has a range exactly when its
      element has a range child, and is a predictor of unknown distribution
      unless its element says otherwise. */
  lemma VariableFromFacts(e: Element, pmid: string, parseFloat: string -> Option<real>)
    ensures var v := VariableFrom(e, pmid, parseFloat);
      && v.citations == ["PMID:" + pmid]
      && (v.range.Some? <==> FirstChild(e.children, "range").Some?)
      && ((forall c :: c in e.children ==> c.tag != "role") ==> v.role == "predictor")
      && ((forall c :: c in e.children ==> c.tag != "distribution") ==> v.distribution == "unknown")
  {
  }

  /** `element.get(name)`. */
  function Attr(e: Element, name: string): Option<string> {
    if name in e.attrs then Some(e.attrs[name]) else None
  }

  /** What `_analyze_papers` stores under a paper's "analysis". */
  datatype Analysis = Analysis(variables: seq<Variable>, keyFindings: string, relevance: string)

  /** The variables of an analysis reply, in document order. */
  function VariablesFrom(es: seq<Element>, pmid: string, parseFloat: string -> Option<real>): (r: seq<Variable>)
    ensures |r| == |es|
  {
    if es == [] then [] else [VariableFrom(es[0], pmid, parseFloat)] + VariablesFrom(es[1..], pmid, parseFloat)
  }

  /** Each element gives the variable at its own position. */
  lemma {:induction false} VariablesFromAt(es: seq<Element>, pmid: string, parseFloat: string -> Option<real>)
    ensures forall k :: 0 <= k < |es| ==> VariablesFrom(es, pmid, parseFloat)[k] == VariableFrom(es[k], pmid, parseFloat)
    decreases |es|
  {
    if es != [] {
      VariablesFromAt(es[1..], pmid, parseFloat);
    }
  }

  /** Every variable read from a paper's reply cites that paper. */
  lemma {:induction false} VariablesFromCite(es: seq<Element>, pmid: string, parseFloat: string -> Option<real>)
    ensures forall v :: v in VariablesFrom(es, pmid, parseFloat) ==> v.citations == ["PMID:" + pmid]
  {
    VariablesFromAt(es, pmid, parseFloat);
    forall v | v in VariablesFrom(es, pmid, parseFloat)
      ensures v.citations == ["PMID:" + pmid]
    {
      var k :| 0 <= k < |es| && VariablesFrom(es, pmid, parseFloat)[k] == v;
      VariableFromFacts(es[k], pmid, parseFloat);
    }
  }

  /** The analysis built from the parsed `<analysis>` element. */
  function AnalysisFrom(e: Element, pmid: string, parseFloat: string -> Option<real>): Analysis {
    Analysis(VariablesFrom(Descendants(e, "variable"), pmid, parseFloat),
             FindText(e, "key_findings", ""), FindText(e, "relevance", "medium"))
  }

  /** One variable per `<variable>` element, each citing the paper. */
  lemma {:induction false} AnalysisFromFacts(e: Element, pmid: string, parseFloat: string -> Option<real>)
    ensures var a := AnalysisFrom(e, pmid, parseFloat);
      && |a.variables| == |Descendants(e, "variable")|
      && forall v :: v in a.variables ==> v.citations == ["PMID:" + pmid]
  {
    VariablesFromCite(Descendants(e, "variable"), pmid, parseFloat);
  }

  // ---------------------------------------------------------------------
  // Papers and their sections

  /** A dictionary of named text sections, in insertion order. */
  type Sections = seq<(string, string)>

  function Keys(d: Sections): (r: seq<string>)
    ensures |r| == |d| && forall k :: 0 <= k < |r| ==> r[k] == d[k].0
  {
    if d == [] then [] else [d[0].0] + Keys(d[1..])
  }

  /** `d.get(key)`. */
  function Lookup(d: Sections, key: string): Option<string> {
    if d == [] then None
    else if d[0].0 == key then Some(d[0].1)
    else Lookup(d[1..], key)
  }

  /** `d[key] = value`: an existing key keeps its place with the new value,
      a new key goes to the end. */
  function Assign(d: Sections, key: string, value: string): (r: Sections)
    ensures Keys(r) == if key in Keys(d) then Keys(d) else Keys(d) + [key]
  {
    if d == [] then [(key, value)]
    else if d[0].0 == key then [(key, value)] + d[1..]
    else [d[0]] + Assign(d[1..], key, value)
  }

  lemma {:induction false} LookupAssign(d: Sections, key: string, value: string, other: string)
    ensures Lookup(Assign(d, key, value), key) == Some(value)
    ensures other != key ==> Lookup(Assign(d, key, value), other) == Lookup(d, other)
    decreases |d|
  {
    if d != [] && d[0].0 != key {
      LookupAssign(d[1..], key, value, other);
    }
  }

  lemma {:induction false} LookupKeys(d: Sections, key: string)
    ensures Lookup(d, key).Some? <==> key in Keys(d)
    decreases |d|
  {
    if d != [] {
      LookupKeys(d[1..], key);
    }
  }

  /** The section an abstract's `Label` attribute (lower-cased; "" when it
      has none) files its text under; `None` for any other label. */
  function AbstractSectionKey(labelText: string): (r: Option<string>)
    ensures r.Some? ==> r.value in ["background", "methods", "results", "conclusions", "full"]
    ensures r == Some("full") <==> labelText == ""
  {
    var l := Lower(labelText);
    if l in ["background", "objective", "introduction"] then Some("background")
    else if l in ["methods", "materials and methods"] then Some("methods")
    else if l in ["results", "findings"] then Some("results")
    else if l in ["conclusion", "conclusions"] then Some("conclusions")
    else if l == "" then Some("full")
    else None
  }

  /** The abstract sections built from the `AbstractText` elements (label,
      text), in order: each text is filed under its section, a later text
      replacing an earlier one of the same section; unknown labels are
      dropped. */
  function AbstractSections(items: seq<(string, string)>): Sections {
    if items == [] then []
    else
      var (labelText, text) := items[|items| - 1];
      var d := AbstractSections(items[..|items| - 1]);
      match AbstractSectionKey(labelText)
      case None => d
      case Some(key) => Assign(d, key, text)
  }

  /** Some item is filed under `key`. */
  predicate Filed(items: seq<(string, string)>, key: string) {
    exists k :: 0 <= k < |items| && AbstractSectionKey(items[k].0) == Some(key)
  }

  lemma {:induction false} FiledSnoc(items: seq<(string, string)>, key: string)
    requires items != []
    ensures Filed(items, key) <==>
      Filed(items[..|items| - 1], key) || AbstractSectionKey(items[|items| - 1].0) == Some(key)
  {
    FiledBySnoc(items, items[..|items| - 1], AbstractSectionKey, key);
  }

  /** Some item's label has the key exactly when an item before the last
      or the last has it, whatever the labels are keyed by. */
  lemma FiledBySnoc(items: seq<(string, string)>, init: seq<(string, string)>, f: string -> Option<string>, key: string)
    requires items != [] && init == items[..|items| - 1]
    ensures (exists k :: 0 <= k < |items| && f(items[k].0) == Some(key)) <==>
      (exists k :: 0 <= k < |init| && f(init[k].0) == Some(key)) || f(items[|items| - 1].0) == Some(key)
  {
    if exists k :: 0 <= k < |items| && f(items[k].0) == Some(key) {
      var k :| 0 <= k < |items| && f(items[k].0) == Some(key);
      if k < |init| {
        assert init[k] == items[k];
      }
    }
    if exists k :: 0 <= k < |init| && f(init[k].0) == Some(key) {
      var k :| 0 <= k < |init| && f(init[k].0) == Some(key);
      assert items[k] == init[k];
    }
  }

  /** A section exists exactly when some item was filed under it. */
  lemma {:induction false} AbstractSectionsPresent(items: seq<(string, string)>, key: string)
    ensures Lookup(AbstractSections(items), key).Some? <==> Filed(items, key)
    decreases |items|
  {
    if items != [] {
      var init := items[..|items| - 1];
      var (labelText, text) := items[|items| - 1];
      AbstractSectionsPresent(init, key);
      FiledSnoc(items, key);
      match AbstractSectionKey(labelText)
      case None =>
      case Some(k) => LookupAssign(AbstractSections(init), k, text, key);
    }
  }

  /** A section holds the text of the last item filed under it. */
  lemma {:induction false} AbstractSectionsLast(items: seq<(string, string)>, key: string, k: nat)
    requires k < |items| && AbstractSectionKey(items[k].0) == Some(key)
    requires forall j :: k < j < |items| ==> AbstractSectionKey(items[j].0) != Some(key)
    ensures Lookup(AbstractSections(items), key) == Some(items[k].1)
    decreases |items|
  {
    var init := items[..|items| - 1];
    var (labelText, text) := items[|items| - 1];
    if k < |items| - 1 {
      AbstractSectionsLast(init, key, k);
      match AbstractSectionKey(labelText)
      case None =>
      case Some(k') => LookupAssign(AbstractSections(init), k', text, key);
    } else {
      LookupAssign(AbstractSections(init), key, text, key);
    }
  }

  /** The section a PMC `sec` element with the given title (lower-cased; ""
      when it has none) files its text under, by the first matching keyword
      group; `None` when no group matches. */
  function PmcSectionKey(title: string): (r: Option<string>)
    ensures r.Some? ==> r.value in ["introduction", "methods", "results", "discussion", "conclusions"]
    ensures r.None? <==> !AnySectionKeyword(title)
  {
    if Contains(title, "introduction") || Contains(title, "background") then Some("introduction")
    else if Contains(title, "method") || Contains(title, "material") then Some("methods")
    else if Contains(title, "result") || Contains(title, "finding") then Some("results")
    else if Contains(title, "discussion") then Some("discussion")
    else if Contains(title, "conclusion") then Some("conclusions")
    else None
  }

  predicate AnySectionKeyword(title: string) {
    || Contains(title, "introduction") || Contains(title, "background")
    || Contains(title, "method") || Contains(title, "material")
    || Contains(title, "result") || Contains(title, "finding")
    || Contains(title, "discussion") || Contains(title, "conclusion")
  }

  /** An earlier keyword group wins: a "Methods and Results" section is filed
      under methods. */
  lemma PmcMethodsBeforeResults(title: string)
    requires !Contains(title, "introduction") && !Contains(title, "background")
    requires Contains(title, "method") && Contains(title, "result")
    ensures PmcSectionKey(title) == Some("methods")
  {
  }

  /** The PMC sections built from the `sec` elements (title text or `None`,
      joined text), in order; each text is stripped and a later section of
      the same kind replaces an earlier one. */
  function PmcSections(secs: seq<(Option<string>, string)>): Sections {
    if secs == [] then []
    else
      var (title, text) := secs[|secs| - 1];
      var d := PmcSections(secs[..|secs| - 1]);
      var t := if title.Some? then Lower(title.value) else "";
      match PmcSectionKey(t)
      case None => d
      case Some(key) => Assign(d, key, Strip(text))
  }

  /** The PMC sections only ever hold the five known kinds, each once. */
  lemma {:induction false} PmcSectionKinds(secs: seq<(Option<string>, string)>)
    ensures forall k :: k in Keys(PmcSections(secs)) ==>
      k in ["introduction", "methods", "results", "discussion", "conclusions"]
    ensures NoRepeats(Keys(PmcSections(secs)))
    decreases |secs|
  {
    if secs != [] {
      var init := secs[..|secs| - 1];
      PmcSectionKinds(init);
      var (title, text) := secs[|secs| - 1];
      var d := PmcSections(init);
      var t := if title.Some? then Lower(title.value) else "";
      match PmcSectionKey(t)
      case None =>
      case Some(key) =>
        if key !in Keys(d) {
          NoRepeatsSnoc(Keys(d), key);
        }
    }
  }

  predicate NoRepeats(s: seq<string>) {
    forall i, j :: 0 <= i < j < |s| ==> s[i] != s[j]
  }

  /** Equal entries of a list without repeats sit at the same position. */
  lemma NoRepeatsIndex(s: seq<string>, i: nat, j: nat)
    requires NoRepeats(s) && i < |s| && j < |s| && s[i] == s[j]
    ensures i == j
  {
  }

  lemma {:induction false} NoRepeatsSnoc(s: seq<string>, x: string)
    requires NoRepeats(s) && x !in s
    ensures NoRepeats(s + [x])
  {
    var r := s + [x];
    forall i, j | 0 <= i < j < |r|
      ensures r[i] != r[j]
    {
      if j < |s| {
        assert r[i] == s[i] && r[j] == s[j];
      } else {
        assert r[i] == s[i];
      }
    }
  }

  lemma {:induction false} NoRepeatsConcat(a: seq<string>, b: seq<string>)
    requires NoRepeats(a) && NoRepeats(b)
    requires forall i, j :: 0 <= i < |a| && 0 <= j < |b| ==> a[i] != b[j]
    ensures NoRepeats(a + b)
  {
    var r := a + b;
    forall i, j | 0 <= i < j < |r|
      ensures r[i] != r[j]
    {
      if j < |a| {
        assert r[i] == a[i] && r[j] == a[j];
      } else if i >= |a| {
        assert r[i] == b[i - |a|] && r[j] == b[j - |a|];
      } else {
        assert r[i] == a[i] && r[j] == b[j - |a|];
      }
    }
  }

  /** A paper as `_search_pubmed` assembles it, and what `_analyze_papers`
      adds to it (`analysis` and `variables_extracted`). */
  datatype Paper = Paper(
    pmid: string, doi: string, title: string, authors: seq<string>, journal: string, year: string,
    abstractSections: Sections, keywords: seq<string>, publicationTypes: seq<string>,
    pmcId: Option<string>, fullTextSections: Sections,
    analysis: Option<Analysis>, variablesExtracted: Option<seq<string>>)

  /** `str.title()` on ASCII text: a letter is upper-cased after a
      non-letter and lower-cased after a letter. */
  function TitleCase(s: string): (r: string)
    ensures |r| == |s|
  {
    TitleFrom(s, false)
  }

  function TitleFrom(s: string, afterLetter: bool): (r: string)
    ensures |r| == |s|
  {
    if s == [] then []
    else
      var c := s[0];
      var isLetter := ('a' <= c <= 'z') || ('A' <= c <= 'Z');
      var out := if !isLetter then c
                 else if afterLetter then LowerChar(c)
                 else if 'a' <= c <= 'z' then (c as int - 32) as char
                 else c;
      [out] + TitleFrom(s[1..], isLetter)
  }

  /** The abstract text shown to the LLM: the unstructured abstract when the
      paper has one, otherwise each section as "Title: text", joined by
      spaces. */
  function AbstractText(sections: Sections): string {
    match Lookup(sections, "full")
    case Some(t) => t
    case None => Join(LabelledSections(sections), " ")
  }

  function LabelledSections(sections: Sections): (r: seq<string>)
    ensures |r| == |sections|
  {
    if sections == [] then []
    else [TitleCase(sections[0].0) + ": " + sections[0].1] + LabelledSections(sections[1..])
  }
}
