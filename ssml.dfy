/**
  * The small part of the Speech Synthesis Markup Language (SSML 1.0) that the
  * skill relies on: the `<speak>` root element (section 3.1.1) wrapped around
  * every fortune, and the `<break>` element (section 3.2.3) that marks a pause.
  */
module Ssml {
  import opened Wrappers

  const SpeakOpen: string := "<speak>"
  const SpeakClose: string := "</speak>"
  /** The opening of a break element; it cannot occur in text without markup. */
  const BreakTag: string := "<break"

  predicate StartsWith(s: string, prefix: string) {
    |prefix| <= |s| && s[..|prefix|] == prefix
  }

  predicate EndsWith(s: string, suffix: string) {
    |suffix| <= |s| && s[|s| - |suffix|..] == suffix
  }

  /** `pat` occurs in `s` starting at position `k`. */
  predicate OccursAt(s: string, pat: string, k: int) {
    0 <= k && k + |pat| <= |s| && s[k..k + |pat|] == pat
  }

  /** Substring search, scanning `s` from the left. */
  function Contains(s: string, pat: string): (b: bool)
    ensures b ==> |pat| <= |s|
    decreases |s|
  {
    StartsWith(s, pat) || (s != [] && Contains(s[1..], pat))
  }

  /** The text carries at least one SSML pause. */
  predicate HasBreak(s: string) {
    Contains(s, BreakTag)
  }

  lemma {:induction false} ContainsAt(s: string, pat: string, k: nat)
    requires OccursAt(s, pat, k)
    ensures Contains(s, pat)
    decreases k
  {
    if k == 0 {
      assert s[..|pat|] == pat;
    } else {
      assert s[1..][k - 1..k - 1 + |pat|] == s[k..k + |pat|];
      ContainsAt(s[1..], pat, k - 1);
    }
  }

  lemma {:induction false} ContainsHasOccurrence(s: string, pat: string)
    requires Contains(s, pat)
    ensures exists k :: OccursAt(s, pat, k)
    decreases |s|
  {
    if StartsWith(s, pat) {
      assert OccursAt(s, pat, 0);
    } else {
      ContainsHasOccurrence(s[1..], pat);
      var k :| OccursAt(s[1..], pat, k);
      assert s[k + 1..k + 1 + |pat|] == s[1..][k..k + |pat|];
      assert OccursAt(s, pat, k + 1);
    }
  }

  /** The scanning search agrees with the definition of an occurrence. */
  lemma ContainsIffOccurs(s: string, pat: string)
    ensures Contains(s, pat) <==> exists k :: OccursAt(s, pat, k)
  {
    if Contains(s, pat) {
      ContainsHasOccurrence(s, pat);
    }
    if exists k :: OccursAt(s, pat, k) {
      var k :| OccursAt(s, pat, k);
      ContainsAt(s, pat, k);
    }
  }

  /** A text in which the first character of `pat` never appears cannot contain `pat`. */
  lemma {:induction false} AbsentFirstChar(s: string, pat: string)
    requires pat != [] && pat[0] !in s
    ensures !Contains(s, pat)
    decreases |s|
  {
    if s != [] {
      assert s[0] in s;
      assert forall c :: c in s[1..] ==> c in s;
      AbsentFirstChar(s[1..], pat);
    }
  }

  /** A text with no `<` at all holds no SSML pause. */
  lemma PlainTextHasNoBreak(s: string)
    requires '<' !in s
    ensures !HasBreak(s)
  {
    AbsentFirstChar(s, BreakTag);
  }

  /** The SSML break element asking for a pause of the given duration. */
  function Pause(time: string): string {
    "<break time=\"" + time + "\" />"
  }

  /** A pause between two pieces of text is a pause in the whole. */
  lemma PauseIsBreak(before: string, time: string, after: string)
    ensures HasBreak(before + Pause(time) + after)
  {
    var s := before + Pause(time) + after;
    assert s[|before|..|before| + |BreakTag|] == BreakTag;
    ContainsAt(s, BreakTag, |before|);
  }

  /** Wraps spoken text in the SSML root element. */
  function Speak(text: string): (r: string)
    ensures StartsWith(r, SpeakOpen) && EndsWith(r, SpeakClose)
    ensures |r| == |SpeakOpen| + |text| + |SpeakClose|
  {
    SpeakOpen + text + SpeakClose
  }

  /** The text inside a `<speak>` root element, if `doc` is one. */
  function SpeakBody(doc: string): (o: Option<string>)
    ensures o.Some? <==> |SpeakOpen| + |SpeakClose| <= |doc| && StartsWith(doc, SpeakOpen) && EndsWith(doc, SpeakClose)
    ensures o.Some? ==> |o.value| + |SpeakOpen| + |SpeakClose| == |doc|
  {
    if |SpeakOpen| + |SpeakClose| <= |doc| && StartsWith(doc, SpeakOpen) && EndsWith(doc, SpeakClose)
    then Some(doc[|SpeakOpen|..|doc| - |SpeakClose|])
    else None
  }

  lemma SpeakRoundTrip(text: string)
    ensures SpeakBody(Speak(text)) == Some(text)
  {
    var doc := Speak(text);
    assert doc[|SpeakOpen|..|doc| - |SpeakClose|] == text;
  }

  lemma SpeakBodyInverse(doc: string)
    requires SpeakBody(doc).Some?
    ensures Speak(SpeakBody(doc).value) == doc
  {
    var inner := doc[|SpeakOpen|..|doc| - |SpeakClose|];
    assert doc == doc[..|SpeakOpen|] + inner + doc[|doc| - |SpeakClose|..];
  }
}
