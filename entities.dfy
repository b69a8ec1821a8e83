/** Medical entity recognition over the analysed papers: the text each paper
    contributes, the confidence and shape filters applied to what the two
    NER pipelines (chemicals, diseases) report, and the collection of the
    recognised names. The pipelines are oracles. */
module Entities {
  import opened Common
  import opened Papers

  // ---------------------------------------------------------------------
  // is_valid_entity

  /** The characters counted as punctuation of a sentence fragment. */
  const SpecialChars: string := ".,:;!?()[]{}#%"

  /** Substrings that mark a sentence fragment or a broken word piece. */
  const FragmentMarkers: seq<string> := [". ", "##", "( ", " )", ": ", "; "]

  function CountIn(s: string, chars: string): (n: nat)
    ensures n <= |s|
  {
    if s == [] then 0 else (if s[0] in chars then 1 else 0) + CountIn(s[1..], chars)
  }

  /** Only separators (commas or whitespace) lie strictly between `i` and `j`. */
  predicate SeparatorsBetween(s: string, i: int, j: int)
    requires 0 <= i < j <= |s|
  {
    forall k :: i < k < j ==> s[k] == ',' || IsSpace(s[k])
  }

  /** The regular expression `\d+[,\s]+\d+` matches somewhere in `s`: two
      digits with at least one separator and nothing else between them. */
  predicate HasSeparatedNumbers(s: string) {
    exists i, j :: 0 <= i && i + 1 < j < |s| && IsDigit(s[i]) && IsDigit(s[j]) && SeparatorsBetween(s, i, j)
  }

  predicate HasMarker(s: string, markers: seq<string>) {
    exists m :: m in markers && Contains(s, m)
  }

  /** `is_valid_entity`: a clean term of 3 to 50 characters with at most two
      punctuation marks, no fragment marker, at most three spaces and no
      number list such as "2, 335". */
  predicate IsValidEntity(e: string) {
    && 3 <= |e| <= 50
    && CountIn(e, SpecialChars) <= 2
    && !HasMarker(e, FragmentMarkers)
    && CountIn(e, " ") <= 3
    && !HasSeparatedNumbers(e)
  }

  /** A short abbreviation is a valid entity. */
  lemma {:induction false} ValidAbbreviation()
    ensures IsValidEntity("CRP")
  {
    var crp := "CRP";
    assert !HasSeparatedNumbers(crp) by {
      forall i | 0 <= i < |crp| ensures !IsDigit(crp[i]) { }
    }
    assert !HasMarker(crp, FragmentMarkers) by {
      forall m | m in FragmentMarkers ensures !Contains(crp, m) {
        assert |m| == 2 && m[0] in ".#( :;";
        forall i | 0 <= i <= |crp| - |m| ensures !OccursAt(crp, m, i) {
          assert crp[i..i + 2][0] == crp[i];
        }
      }
    }
  }

  /** A count of patients is a sentence fragment, not an entity. */
  lemma {:induction false} PatientCountRejected()
    ensures !IsValidEntity("2, 335 patients")
  {
    var frag := "2, 335 patients";
    assert IsDigit(frag[0]) && IsDigit(frag[3]) && SeparatorsBetween(frag, 0, 3);
  }

  /** A word piece ("##ose") and a two-letter word are rejected. */
  lemma {:induction false} FragmentsRejected()
    ensures !IsValidEntity("##ose")
    ensures !IsValidEntity("in")
  {
    var piece := "##ose";
    assert OccursAt(piece, "##", 0);
    assert "##" in FragmentMarkers;
  }

  // ---------------------------------------------------------------------
  // NER results

  /** One entity reported by a pipeline. */
  datatype Hit = Hit(word: string, score: real)

  /** A pipeline run over one text; `None` when it raises. */
  type Ner = string -> Option<seq<Hit>>

  const MinScore: real := 0.85

  /** The names kept from a pipeline's hits, in order: confident hits only,
      stripped, and valid as entities. */
  function Accepted(hits: seq<Hit>): (r: seq<string>)
    ensures forall e :: e in r ==> IsValidEntity(e)
  {
    if hits == [] then []
    else
      var h := hits[|hits| - 1];
      var e := Strip(h.word);
      Accepted(hits[..|hits| - 1]) + (if h.score > MinScore && IsValidEntity(e) then [e] else [])
  }

  /** A name is accepted exactly when some confident hit strips to it and
      it is a valid entity. */
  lemma {:induction false} AcceptedMembers(hits: seq<Hit>, e: string)
    ensures e in Accepted(hits) <==>
      exists h :: h in hits && h.score > MinScore && Strip(h.word) == e && IsValidEntity(e)
    decreases |hits|
  {
    if hits != [] {
      var init := hits[..|hits| - 1];
      AcceptedMembers(init, e);
      assert forall x :: x in hits <==> x in init || x == hits[|hits| - 1];
    }
  }

  /** `acc` with each new name of `xs` added once, the first time it is seen
      (a set kept in the order its members were found). */
  function AddNew(acc: seq<string>, xs: seq<string>): (r: seq<string>)
    ensures forall e :: e in r <==> e in acc || e in xs
    ensures NoRepeats(acc) ==> NoRepeats(r)
    ensures |acc| <= |r| && r[..|acc|] == acc
    decreases |xs|
  {
    if xs == [] then acc
    else if xs[0] in acc then AddNew(acc, xs[1..])
    else
      var r := AddNew(acc + [xs[0]], xs[1..]);
      assert (acc + [xs[0]])[..|acc|] == acc;
      r
  }

  // ---------------------------------------------------------------------
  // Paper text

  const MaxSectionChars := 1500
  const MaxPaperChars := 5000

  /** The abstract sections longer than 20 characters, in order. */
  function LongSections(d: Sections): (r: seq<string>)
    ensures forall t :: t in r ==> |t| > 20
  {
    if d == [] then []
    else (if |d[0].1| > 20 then [d[0].1] else []) + LongSections(d[1..])
  }

  /** The first 1500 characters of a non-empty full-text section. */
  function SectionPart(d: Sections, key: string): (r: seq<string>)
    ensures |r| <= 1 && forall t :: t in r ==> 0 < |t| <= MaxSectionChars
  {
    match Lookup(d, key)
    case Some(t) => if t != "" then [PySliceTo(t, MaxSectionChars)] else []
    case None => []
  }

  /** The text a paper gives the pipelines: its long abstract sections, then
      the start of its methods and results, joined by spaces and cut to 5000
      characters; `None` when that is blank. */
  function PaperText(p: Paper): (r: Option<string>)
    ensures r.Some? ==> 0 < |r.value| <= MaxPaperChars && Strip(r.value) != ""
  {
    var parts := LongSections(p.abstractSections) + SectionPart(p.fullTextSections, "methods")
      + SectionPart(p.fullTextSections, "results");
    var combined := PySliceTo(Join(parts, " "), MaxPaperChars);
    if Strip(combined) != "" then Some(combined) else None
  }

  /** The texts of the papers that have one, in order. */
  function PaperTexts(papers: seq<Paper>): (r: seq<string>)
    ensures |r| <= |papers|
    ensures forall t :: t in r ==> Strip(t) != "" && |t| <= MaxPaperChars
  {
    if papers == [] then []
    else
      var rest := PaperTexts(papers[..|papers| - 1]);
      match PaperText(papers[|papers| - 1])
      case None => rest
      case Some(t) => rest + [t]
  }

  // ---------------------------------------------------------------------
  // Collecting entities

  datatype Recognized = Recognized(chemicals: seq<string>, diseases: seq<string>)

  /** What one text adds: the chemical pipeline runs first; when it raises,
      the text adds nothing; when the disease pipeline raises, the chemicals
      already added stay. */
  function AddText(acc: Recognized, text: string, chemicalNer: Ner, diseaseNer: Ner): Recognized {
    match chemicalNer(text)
    case None => acc
    case Some(chemHits) =>
      var chemicals := AddNew(acc.chemicals, Accepted(chemHits));
      match diseaseNer(text)
      case None => Recognized(chemicals, acc.diseases)
      case Some(disHits) => Recognized(chemicals, AddNew(acc.diseases, Accepted(disHits)))
  }

  /** The entities recognised in the texts, in order. */
  function RecognizedIn(texts: seq<string>, chemicalNer: Ner, diseaseNer: Ner): Recognized {
    if texts == [] then Recognized([], [])
    else AddText(RecognizedIn(texts[..|texts| - 1], chemicalNer, diseaseNer), texts[|texts| - 1], chemicalNer, diseaseNer)
  }

  /** The chemical pipeline's names for a text it did not raise on. */
  function ChemicalsOf(text: string, chemicalNer: Ner): seq<string> {
    match chemicalNer(text)
    case None => []
    case Some(hits) => Accepted(hits)
  }

  /** The disease pipeline's names for a text on which neither pipeline
      raised. */
  function DiseasesOf(text: string, chemicalNer: Ner, diseaseNer: Ner): seq<string> {
    if chemicalNer(text).None? then []
    else match diseaseNer(text)
      case None => []
      case Some(hits) => Accepted(hits)
  }

  /** Some text's chemical pipeline run accepted `e`. */
  predicate ChemicalFound(texts: seq<string>, chemicalNer: Ner, e: string) {
    |texts| > 0 &&
    (ChemicalFound(texts[..|texts| - 1], chemicalNer, e) || e in ChemicalsOf(texts[|texts| - 1], chemicalNer))
  }

  /** Some text's disease pipeline run accepted `e`. */
  predicate DiseaseFound(texts: seq<string>, chemicalNer: Ner, diseaseNer: Ner, e: string) {
    |texts| > 0 &&
    (DiseaseFound(texts[..|texts| - 1], chemicalNer, diseaseNer, e)
     || e in DiseasesOf(texts[|texts| - 1], chemicalNer, diseaseNer))
  }

  /** A name is a recognised chemical (disease) exactly when the chemical
      (disease) pipeline accepted it for some text. */
  lemma {:induction false} RecognizedMembers(texts: seq<string>, chemicalNer: Ner, diseaseNer: Ner, e: string)
    ensures e in RecognizedIn(texts, chemicalNer, diseaseNer).chemicals <==> ChemicalFound(texts, chemicalNer, e)
    ensures e in RecognizedIn(texts, chemicalNer, diseaseNer).diseases <==> DiseaseFound(texts, chemicalNer, diseaseNer, e)
    decreases |texts|
  {
    if texts != [] {
      RecognizedMembers(texts[..|texts| - 1], chemicalNer, diseaseNer, e);
    }
  }

  /** Each recognised name is kept once. */
  lemma {:induction false} RecognizedOnce(texts: seq<string>, chemicalNer: Ner, diseaseNer: Ner)
    ensures NoRepeats(RecognizedIn(texts, chemicalNer, diseaseNer).chemicals)
    ensures NoRepeats(RecognizedIn(texts, chemicalNer, diseaseNer).diseases)
    decreases |texts|
  {
    if texts != [] {
      RecognizedOnce(texts[..|texts| - 1], chemicalNer, diseaseNer);
    }
  }

  /** Every recognised name passed the confidence and shape filters. */
  lemma {:induction false} RecognizedValid(texts: seq<string>, chemicalNer: Ner, diseaseNer: Ner)
    ensures var r := RecognizedIn(texts, chemicalNer, diseaseNer);
      forall e :: e in r.chemicals || e in r.diseases ==> IsValidEntity(e)
    decreases |texts|
  {
    if texts != [] {
      RecognizedValid(texts[..|texts| - 1], chemicalNer, diseaseNer);
    }
  }

  /** `_extract_medical_entities`' loop over the paper texts. */
  method CollectEntities(texts: seq<string>, chemicalNer: Ner, diseaseNer: Ner) returns (r: Recognized)
    ensures r == RecognizedIn(texts, chemicalNer, diseaseNer)
  {
    r := Recognized([], []);
    var i := 0;
    while i < |texts|
      invariant 0 <= i <= |texts|
      invariant r == RecognizedIn(texts[..i], chemicalNer, diseaseNer)
    {
      assert texts[..i + 1][..i] == texts[..i];
      var text := texts[i];
      var chemHits := chemicalNer(text);
      if chemHits.Some? {
        var chemicals := AddNew(r.chemicals, Accepted(chemHits.value));
        var disHits := diseaseNer(text);
        if disHits.Some? {
          r := Recognized(chemicals, AddNew(r.diseases, Accepted(disHits.value)));
        } else {
          r := Recognized(chemicals, r.diseases);
        }
      }
      i := i + 1;
    }
    assert texts[..|texts|] == texts;
  }

  /** `_extract_medical_entities`: nothing when the pipelines could not be
      loaded, otherwise the entities of the analysed papers' texts. */
  method ExtractMedicalEntities(papers: seq<Paper>, nerLoaded: bool, chemicalNer: Ner, diseaseNer: Ner)
    returns (r: Recognized)
    ensures !nerLoaded ==> r == Recognized([], [])
    ensures nerLoaded ==> r == RecognizedIn(PaperTexts(papers), chemicalNer, diseaseNer)
  {
    if !nerLoaded {
      return Recognized([], []);
    }
    r := CollectEntities(PaperTexts(papers), chemicalNer, diseaseNer);
  }
}
