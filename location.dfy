/**
 * The location extractor: `re.search(r"in (\w+)", text)` and its
 * `group(1)`.  The search tries each start index from the left; the
 * pattern matches at an index holding the literal "in " followed by at
 * least one word character, and the greedy `\w+` takes the longest run
 * of word characters.  The literal is case-sensitive and may sit inside
 * a word ("rain ", "Spain ").
 */
module Location {
  import opened Wrappers
  import opened Text

  /** The literal part of the pattern. */
  const Anchor: string := "in "

  /** What `re.search` reports: where the match starts and its first group. */
  datatype Match = Match(start: nat, group: string)

  /** The pattern matches at index `i`. */
  predicate MatchesAt(text: string, i: nat)
  {
    i + |Anchor| < |text| && text[i..i + |Anchor|] == Anchor && IsWordChar(text[i + |Anchor|])
  }

  /** `i` is the leftmost index where the pattern matches. */
  ghost predicate LeftmostMatch(text: string, i: nat)
  {
    MatchesAt(text, i) && forall j: nat :: j < i ==> !MatchesAt(text, j)
  }

  /** `w` is a non-empty run of word characters at `start` that cannot be extended. */
  ghost predicate MaximalWordRun(text: string, start: nat, w: string)
  {
    && 0 < |w|
    && start + |w| <= |text|
    && text[start..start + |w|] == w
    && (forall k :: 0 <= k < |w| ==> IsWordChar(w[k]))
    && (start + |w| == |text| || !IsWordChar(text[start + |w|]))
  }

  /** Where the greedy `\w+` starting at `j` stops. */
  function RunEnd(text: string, j: nat): (e: nat)
    requires j <= |text|
    ensures j <= e <= |text|
    ensures forall k :: j <= k < e ==> IsWordChar(text[k])
    ensures e == |text| || !IsWordChar(text[e])
    decreases |text| - j
  {
    if j < |text| && IsWordChar(text[j]) then RunEnd(text, j + 1) else j
  }

  /** The first index at or after `from` where the pattern matches. */
  function FindFrom(text: string, from: nat): (r: Option<nat>)
    ensures r.Some? ==> from <= r.value && MatchesAt(text, r.value)
    ensures forall i: nat :: from <= i && (r.None? || i < r.value) ==> !MatchesAt(text, i)
    decreases |text| - from
  {
    if from + |Anchor| >= |text| then None
    else if MatchesAt(text, from) then Some(from)
    else FindFrom(text, from + 1)
  }

  /** `re.search(r"in (\w+)", text)`: the leftmost match and its maximal word run. */
  function Search(text: string): (r: Option<Match>)
    ensures r.None? <==> forall i: nat :: !MatchesAt(text, i)
    ensures r.Some? ==> LeftmostMatch(text, r.value.start)
    ensures r.Some? ==> MaximalWordRun(text, r.value.start + |Anchor|, r.value.group)
  {
    match FindFrom(text, 0)
    case None => None
    case Some(i) =>
      var e := RunEnd(text, i + |Anchor| + 1);
      Some(Match(i, text[i + |Anchor|..e]))
  }

  /** Two maximal word runs at the same index are the same run. */
  lemma MaximalWordRunUnique(text: string, start: nat, v: string, w: string)
    requires MaximalWordRun(text, start, v) && MaximalWordRun(text, start, w)
    ensures v == w
  {
    assert forall k :: start <= k < start + |v| ==> IsWordChar(text[k]) by {
      forall k | start <= k < start + |v| ensures IsWordChar(text[k]) {
        assert text[k] == v[k - start];
      }
    }
    assert forall k :: start <= k < start + |w| ==> IsWordChar(text[k]) by {
      forall k | start <= k < start + |w| ensures IsWordChar(text[k]) {
        assert text[k] == w[k - start];
      }
    }
  }

  /**
   * The extractor is characterised by its specification: a leftmost match
   * at `i` followed by the maximal word run `w` is exactly what it returns.
   */
  lemma SearchDetermined(text: string, i: nat, w: string)
    requires LeftmostMatch(text, i) && MaximalWordRun(text, i + |Anchor|, w)
    ensures Search(text) == Some(Match(i, w))
  {
    var r := Search(text);
    MaximalWordRunUnique(text, i + |Anchor|, r.value.group, w);
  }

  /**
   * "... in X ...", with no earlier match, yields X when X is a maximal
   * run of word characters.
   */
  lemma LocationAfterFirstAnchor(before: string, x: string, after: string)
    requires 0 < |x| && forall k :: 0 <= k < |x| ==> IsWordChar(x[k])
    requires after == [] || !IsWordChar(after[0])
    requires forall j: nat :: j < |before| ==> !MatchesAt(before + Anchor + x + after, j)
    ensures Search(before + Anchor + x + after) == Some(Match(|before|, x))
  {
    var text := before + Anchor + x + after;
    var s := |before| + |Anchor|;
    assert text[|before|..s] == Anchor;
    assert text[s..s + |x|] == x;
    assert text[s] == x[0];
    assert s + |x| < |text| ==> text[s + |x|] == after[0];
    SearchDetermined(text, |before|, x);
  }

  /** The match is case-sensitive: a capital "I" never starts one. */
  lemma CapitalInNeverMatches(text: string, i: nat)
    requires i < |text| && text[i] == 'I'
    ensures !MatchesAt(text, i)
  {
  }

  /** "In Paris" has no match at all. */
  lemma CapitalInExample()
    ensures Search("In Paris") == None
  {
    var t := "In Paris";
    forall i: nat ensures !MatchesAt(t, i) {
      if i == 0 {
        CapitalInNeverMatches(t, 0);
      } else if i + |Anchor| < |t| {
        assert t[i..i + |Anchor|][0] == t[i];
      }
    }
  }

  /** The literal matches inside "Rain", so "Rain in Spain" yields the word "in". */
  lemma RainInSpainExample()
    ensures Search("Rain in Spain") == Some(Match(2, "in"))
  {
    var t := "Rain in Spain";
    assert t == "Ra" + Anchor + "in" + " Spain";
    forall j: nat | j < 2 ensures !MatchesAt(t, j) {
      assert t[j..j + |Anchor|][0] == t[j];
    }
    LocationAfterFirstAnchor("Ra", "in", " Spain");
  }
}
