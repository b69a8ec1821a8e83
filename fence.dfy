/** Removal of the markdown code fence an LLM may wrap around its structured
    payload. The same expression appears in three places of the backend:
    `_extract_xml` (language tag "xml"), and the JSON extraction of the
    literature agent and the dataset discovery agent (language tag "json"). */
module CodeFence {
  import opened Common

  const Fence: string := "```"

  /** The text handed to the parser: the stripped response, or, when it
      starts with a fence, its inner lines (when there are more than two)
      with every "```<lang>" and "```" marker deleted, stripped again. */
  function StripCodeFence(text: string, lang: string): string {
    var t := Strip(text);
    if StartsWith(t, Fence) then Cleanup(InnerLines(t), lang) else t
  }

  /** The lines between the first and the last, or the whole text when it
      has at most two lines. */
  function InnerLines(t: string): string {
    var lines := Split(t, '\n');
    if |lines| > 2 then Join(lines[1..|lines| - 1], "\n") else t
  }

  /** Deletes the "```<lang>" markers, then the "```" markers, then strips. */
  function Cleanup(body: string, lang: string): string {
    Strip(ReplaceAll(ReplaceAll(body, Fence + lang, ""), Fence, ""))
  }

  /** A response that does not start with a fence is only stripped. */
  lemma UnfencedUnchanged(text: string, lang: string)
    requires !StartsWith(Strip(text), Fence)
    ensures StripCodeFence(text, lang) == Strip(text)
  {
  }

  /** Once a fenced response has been processed, no "```" is left in it,
      whatever the payload contained: deleting "```" left to right reduces
      every run of n backticks to n mod 3 of them. */
  lemma {:induction false} FencedHasNoMarker(text: string, lang: string)
    requires StartsWith(Strip(text), Fence)
    ensures !Contains(StripCodeFence(text, lang), Fence)
  {
    CleanupHasNoMarker(InnerLines(Strip(text)), lang);
  }

  lemma {:induction false} CleanupHasNoMarker(body: string, lang: string)
    ensures !Contains(Cleanup(body, lang), Fence)
  {
    var r := ReplaceAll(ReplaceAll(body, Fence + lang, ""), Fence, "");
    RemovingFencesLeavesNone(ReplaceAll(body, Fence + lang, ""));
    var out := Strip(r);
    if Contains(out, Fence) {
      StripIsSlice(r);
      ContainsSlice(r, Fence, StripOffset(r), |out|);
      assert false;
    }
  }

  /** Wrapping a payload in a fence and stripping it again gives the payload
      back, when the payload has no backtick and no surrounding whitespace. */
  lemma {:induction false} FenceRoundTrip(payload: string, lang: string)
    requires forall i :: 0 <= i < |payload| ==> payload[i] != '`'
    requires forall i :: 0 <= i < |lang| ==> lang[i] != '\n' && !IsSpace(lang[i])
    requires Strip(payload) == payload
    ensures StripCodeFence(Fence + lang + "\n" + payload + "\n" + Fence, lang) == payload
  {
    var text := Fence + lang + "\n" + payload + "\n" + Fence;
    FencedTextIsStripped(payload, lang);
    InnerLinesOfFenced(payload, lang);
    CleanupLeavesPlainText(payload, lang);
  }

  lemma {:induction false} CleanupLeavesPlainText(payload: string, lang: string)
    requires forall i :: 0 <= i < |payload| ==> payload[i] != '`'
    requires Strip(payload) == payload
    ensures Cleanup(payload, lang) == payload
  {
    ReplaceAbsent(payload, Fence + lang);
    ReplaceAbsent(payload, Fence);
  }

  lemma {:induction false} FencedTextIsStripped(payload: string, lang: string)
    ensures var text := Fence + lang + "\n" + payload + "\n" + Fence;
      Strip(text) == text && StartsWith(text, Fence)
  {
    var text := Fence + lang + "\n" + payload + "\n" + Fence;
    assert text[0] == '`' && text[|text| - 1] == '`';
    assert text[..3] == Fence;
    StripUnchanged(text);
  }

  lemma {:induction false} InnerLinesOfFenced(payload: string, lang: string)
    requires forall i :: 0 <= i < |lang| ==> lang[i] != '\n'
    ensures InnerLines(Fence + lang + "\n" + payload + "\n" + Fence) == payload
  {
    var head := Fence + lang;
    var text := Fence + lang + "\n" + payload + "\n" + Fence;
    assert forall i :: 0 <= i < |head| ==> head[i] != '\n';
    assert text == head + ['\n'] + (payload + ['\n'] + Fence);
    SplitConcat(head, payload + ['\n'] + Fence, '\n');
    SplitConcat(payload, Fence, '\n');
    SplitNoSep(head, '\n');
    SplitNoSep(Fence, '\n');
    SplitJoin(payload, '\n');
    var lines := Split(text, '\n');
    assert lines == [head] + Split(payload, '\n') + [Fence];
    assert lines[1..|lines| - 1] == Split(payload, '\n');
  }

  // ---------------------------------------------------------------------
  // Helper facts

  function LeadingTicks(s: string): nat {
    if s != [] && s[0] == '`' then 1 + LeadingTicks(s[1..]) else 0
  }

  lemma {:induction false} RemovingFencesLeavesNone(s: string)
    ensures !Contains(ReplaceAll(s, Fence, ""), Fence)
    ensures LeadingTicks(ReplaceAll(s, Fence, "")) <= 2
    ensures LeadingTicks(s) < 3 ==> LeadingTicks(ReplaceAll(s, Fence, "")) == LeadingTicks(s)
    decreases |s|
  {
    var r := ReplaceAll(s, Fence, "");
    LeadingTicksFence(s);
    if s == [] {
    } else if StartsWith(s, Fence) {
      RemovingFencesLeavesNone(s[3..]);
      assert r == ReplaceAll(s[3..], Fence, "");
    } else {
      var rest := ReplaceAll(s[1..], Fence, "");
      RemovingFencesLeavesNone(s[1..]);
      assert r == [s[0]] + rest;
      assert r[1..] == rest;
      LeadingTicksFence(r);
      forall i | 0 <= i <= |r| - 3 ensures !OccursAt(r, Fence, i) {
        if i > 0 {
          assert r[i..i + 3] == rest[i - 1..i + 2];
          assert !OccursAt(rest, Fence, i - 1);
        }
      }
    }
  }

  /** A string starts with a fence exactly when it has three leading backticks. */
  lemma {:induction false} LeadingTicksFence(x: string)
    ensures StartsWith(x, Fence) <==> LeadingTicks(x) >= 3
  {
    if |x| >= 3 {
      assert x[1..][0] == x[1] && x[1..][1..] == x[2..] && x[2..][0] == x[2];
      assert StartsWith(x, Fence) <==> x[0] == '`' && x[1] == '`' && x[2] == '`';
    } else if |x| >= 2 {
      assert x[1..][0] == x[1] && x[1..][1..] == x[2..] && x[2..] == [];
      assert LeadingTicks(x[2..]) == 0;
      assert LeadingTicks(x[1..]) <= 1;
    } else if |x| >= 1 {
      assert x[1..] == [];
    }
  }

  lemma {:induction false} ReplaceAbsent(s: string, pat: string)
    requires |pat| > 0 && pat[0] == '`'
    requires forall i :: 0 <= i < |s| ==> s[i] != '`'
    ensures ReplaceAll(s, pat, "") == s
    decreases |s|
  {
    if s != [] {
      ReplaceAbsent(s[1..], pat);
    }
  }

  lemma {:induction false} SplitNoSep(s: string, sep: char)
    requires forall i :: 0 <= i < |s| ==> s[i] != sep
    ensures Split(s, sep) == [s]
    decreases |s|
  {
    if s != [] {
      SplitNoSep(s[1..], sep);
      assert [s[0]] + s[1..] == s;
    }
  }

  lemma {:induction false} SplitConcat(a: string, b: string, sep: char)
    ensures Split(a + [sep] + b, sep) == Split(a, sep) + Split(b, sep)
    decreases |a|
  {
    var x := a + [sep] + b;
    if a == [] {
      assert x == [sep] + b;
      assert x[1..] == b;
      assert Split(x, sep) == [""] + Split(b, sep);
    } else {
      SplitConcat(a[1..], b, sep);
      assert x[1..] == a[1..] + [sep] + b;
      if a[0] == sep {
        SplitConcatAtSep(a, b, sep);
      } else {
        SplitConcatInWord(a, b, sep);
      }
    }
  }

  /** `SplitConcat` when `a` starts with the separator. */
  lemma SplitConcatAtSep(a: string, b: string, sep: char)
    requires a != [] && a[0] == sep
    requires Split((a + [sep] + b)[1..], sep) == Split(a[1..], sep) + Split(b, sep)
    ensures Split(a + [sep] + b, sep) == Split(a, sep) + Split(b, sep)
  {
    var x := a + [sep] + b;
    assert x[0] == sep;
    var restA := Split(a[1..], sep);
    assert Split(x, sep) == [""] + (restA + Split(b, sep));
    assert Split(a, sep) == [""] + restA;
    AssocSplits([""], restA, Split(b, sep));
  }

  /** `SplitConcat` when `a` starts inside a word. */
  lemma SplitConcatInWord(a: string, b: string, sep: char)
    requires a != [] && a[0] != sep
    requires Split((a + [sep] + b)[1..], sep) == Split(a[1..], sep) + Split(b, sep)
    ensures Split(a + [sep] + b, sep) == Split(a, sep) + Split(b, sep)
  {
    var x := a + [sep] + b;
    assert x[0] == a[0];
    var restX := Split(x[1..], sep);
    var restA := Split(a[1..], sep);
    var h := [a[0]] + restA[0];
    assert restX[0] == restA[0];
    assert restX[1..] == restA[1..] + Split(b, sep);
    assert Split(x, sep) == [h] + restX[1..];
    assert Split(a, sep) == [h] + restA[1..];
    AssocSplits([h], restA[1..], Split(b, sep));
  }

  lemma AssocSplits(p: seq<string>, q: seq<string>, r: seq<string>)
    ensures p + (q + r) == (p + q) + r
  {
  }
}
