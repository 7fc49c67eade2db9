/**
  The secret scrubber of `src/standby.js`: secrets are masked one after another,
  and the result is cut to 300 characters before it reaches a log or /health.

  The question is which secrets can never appear in what comes out. A secret that
  does not touch the mask cannot; one that does can be put together again by a
  later replacement. `ScrubGuarantee` says exactly which is which.
*/
module Scrub {

  const MASK := "***"
  const CUT := 300

  ghost predicate OccursAt(text: string, s: string, i: nat) {
    i + |s| <= |text| && text[i..i + |s|] == s
  }

  ghost predicate Contains(text: string, s: string) {
    exists i: nat :: OccursAt(text, s, i)
  }

  /** `text.split(s).join('***')`: the leftmost, non-overlapping occurrences. */
  function ReplaceAll(text: string, s: string): string
    requires s != ""
  {
    if |text| < |s| then text
    else if text[..|s|] == s then MASK + ReplaceAll(text[|s|..], s)
    else [text[0]] + ReplaceAll(text[1..], s)
  }

  function MaskEach(text: string, secrets: seq<string>): string {
    if secrets == [] then text
    else
      var before := MaskEach(text, secrets[..|secrets| - 1]);
      var secret := secrets[|secrets| - 1];
      if secret == "" then before else ReplaceAll(before, secret)
  }

  function Cut(text: string): string {
    if |text| <= CUT then text else text[..CUT]
  }

  function Scrubbed(text: string, secrets: seq<string>): string {
    Cut(MaskEach(text, secrets))
  }

  /** `scrub`. An empty secret is skipped: splitting on it would shred the text. */
  method ScrubText(text: string, secrets: seq<string>) returns (out: string)
    ensures out == Scrubbed(text, secrets)
    ensures |out| <= CUT
  {
    out := text;
    for i := 0 to |secrets|
      invariant out == MaskEach(text, secrets[..i])
    {
      assert secrets[..i + 1][..i] == secrets[..i];
      if secrets[i] != "" {
        out := ReplaceAll(out, secrets[i]);
      }
    }
    assert secrets[..|secrets|] == secrets;
    out := Cut(out);
  }

  // ---- Which secrets the mask can put together again -----------------------

  function LeadingStars(s: string): (n: nat)
    ensures n <= |s|
    ensures forall i :: 0 <= i < n ==> s[i] == '*'
    ensures n < |s| ==> s[n] != '*'
  {
    if s != "" && s[0] == '*' then 1 + LeadingStars(s[1..]) else 0
  }

  ghost predicate EndsInStar(s: string) {
    s != "" && s[|s| - 1] == '*'
  }

  /** The mask can contribute the end of `s`, its middle, or its beginning - and the result fits the cut. */
  ghost predicate CanSurvive(s: string) {
    |s| <= CUT &&
    (EndsInStar(s)
     || Contains(s, MASK)
     || (LeadingStars(s) > 0 && |s| + 3 - LeadingStars(s) <= CUT))
  }

  // ---- A secret that does not end in a star nor hold a mask ----------------

  lemma RunsIntoMask(u: string, rest: string)
    requires u != "" && u <= MASK + rest
    ensures EndsInStar(u) || Contains(u, MASK)
  {
    if |u| <= 3 {
      assert u == MASK[..|u|];
    } else {
      assert u[0..3] == (MASK + rest)[..3] == MASK;
      assert OccursAt(u, MASK, 0);
    }
  }

  lemma OneMoreChar(u: string, text: string)
    requires u != "" && text != "" && u[0] == text[0]
    requires u[1..] <= text[1..] || EndsInStar(u[1..]) || Contains(u[1..], MASK)
    ensures u <= text || EndsInStar(u) || Contains(u, MASK)
  {
    if u[1..] <= text[1..] {
      assert u == [u[0]] + u[1..];
    } else if !EndsInStar(u[1..]) {
      var i: nat :| OccursAt(u[1..], MASK, i);
      assert OccursAt(u, MASK, i + 1);
    }
  }

  /** What starts a masked text starts the text itself, or else runs into a mask. */
  lemma {:induction false} PrefixOfMasked(text: string, t: string, u: string)
    requires t != "" && u <= ReplaceAll(text, t)
    ensures u <= text || EndsInStar(u) || Contains(u, MASK)
    decreases |text|
  {
    if |text| < |t| || u == "" {
    } else if text[..|t|] == t {
      RunsIntoMask(u, ReplaceAll(text[|t|..], t));
    } else {
      assert u[1..] <= ReplaceAll(text[1..], t);
      PrefixOfMasked(text[1..], t, u[1..]);
      OneMoreChar(u, text);
    }
  }

  lemma OccursInDrop(text: string, k: nat, s: string, i: nat)
    requires k <= |text|
    ensures OccursAt(text[k..], s, i) <==> OccursAt(text, s, k + i)
  {
    if k + i + |s| <= |text| {
      assert text[k..][i..i + |s|] == text[k + i..k + i + |s|];
    }
  }

  /** Positions the cut leaves room for only if the mask does not contribute to the beginning of `s`. */
  ghost predicate Early(s: string, i: nat) {
    LeadingStars(s) > 0 ==> i + LeadingStars(s) < 3
  }

  /** The mask can contribute neither the end of `s` nor its middle. */
  ghost predicate Sealed(s: string) {
    s != "" && !EndsInStar(s) && !Contains(s, MASK)
  }

  /** An early occurrence does not begin inside a mask. */
  lemma AfterMask(rest: string, s: string, i: nat)
    requires Sealed(s) && Early(s, i) && OccursAt(MASK + rest, s, i)
    ensures i >= 3 && OccursAt(rest, s, i - 3) && LeadingStars(s) == 0
  {
    var whole := MASK + rest;
    assert forall k :: 0 <= k < |s| ==> s[k] == whole[i + k];
    assert forall k :: 0 <= k < |s| && i + k < 3 ==> s[k] == '*';
    assert i >= 3;
    assert whole[3..] == rest;
    OccursInDrop(whole, 3, s, i - 3);
  }

  lemma AfterChar(c: char, rest: string, s: string, i: nat)
    requires i > 0 && OccursAt([c] + rest, s, i)
    ensures OccursAt(rest, s, i - 1)
  {
    assert ([c] + rest)[1..] == rest;
    OccursInDrop([c] + rest, 1, s, i - 1);
  }

  lemma AtTheFront(text: string, t: string, s: string)
    requires t != "" && Sealed(s) && !(t <= text)
    requires OccursAt(ReplaceAll(text, t), s, 0)
    ensures OccursAt(text, s, 0) && s != t
  {
    assert s <= ReplaceAll(text, t);
    PrefixOfMasked(text, t, s);
    assert text[0..|s|] == text[..|s|] == s;
  }

  /** An early occurrence of `s` after masking `t` was there before, and was not `t` itself. */
  lemma {:induction false} EarlyOccurrenceIsOld(text: string, t: string, s: string, i: nat) returns (j: nat)
    requires t != "" && Sealed(s) && Early(s, i)
    requires OccursAt(ReplaceAll(text, t), s, i)
    ensures OccursAt(text, s, j) && s != t
    ensures i == j || LeadingStars(s) == 0
    decreases |text|
  {
    if t <= text {
      AfterMask(ReplaceAll(text[|t|..], t), s, i);
      j := EarlyOccurrenceIsOld(text[|t|..], t, s, i - 3);
      OccursInDrop(text, |t|, s, j);
      j := |t| + j;
    } else if i == 0 {
      AtTheFront(text, t, s);
      j := 0;
    } else if |text| < |t| {
      j := i;
    } else {
      AfterChar(text[0], ReplaceAll(text[1..], t), s, i);
      j := EarlyOccurrenceIsOld(text[1..], t, s, i - 1);
      OccursInDrop(text, 1, s, j);
      j := 1 + j;
    }
  }

  ghost predicate FreeOf(out: string, s: string) {
    forall i: nat :: Early(s, i) ==> !OccursAt(out, s, i)
  }

  lemma {:induction false} MaskedForGood(text: string, secrets: seq<string>, s: string)
    requires s != "" && s in secrets && Sealed(s)
    ensures FreeOf(MaskEach(text, secrets), s)
    decreases |secrets|
  {
    var earlier, secret := secrets[..|secrets| - 1], secrets[|secrets| - 1];
    var before := MaskEach(text, earlier);
    if s in earlier {
      MaskedForGood(text, earlier, s);
    }
    forall i: nat | Early(s, i)
      ensures !OccursAt(MaskEach(text, secrets), s, i)
    {
      if OccursAt(MaskEach(text, secrets), s, i) {
        if secret != "" {
          var j := EarlyOccurrenceIsOld(before, secret, s, i);
        }
        assert false;
      }
    }
  }

  /** A secret outside `CanSurvive` is gone, whatever the text and whatever else is masked. */
  lemma ScrubbedForGood(text: string, secrets: seq<string>, s: string)
    requires s != "" && s in secrets && !CanSurvive(s)
    ensures !Contains(Scrubbed(text, secrets), s)
  {
    var full := MaskEach(text, secrets);
    if |s| <= CUT {
      MaskedForGood(text, secrets, s);
      forall i: nat | OccursAt(Cut(full), s, i)
        ensures false
      {
        assert OccursAt(full, s, i);
      }
    }
  }

  // ---- Every other secret can come back -------------------------------------

  function Repeat(c: char, n: nat): (r: string)
    ensures |r| == n && forall i :: 0 <= i < n ==> r[i] == c
  {
    if n == 0 then "" else [c] + Repeat(c, n - 1)
  }

  /** A star-free secret that cannot overlap a shifted copy of itself by less than its length. */
  function Bait(n: nat): (t: string)
    ensures |t| == n + 1 && '*' !in t
  {
    Repeat('b', n) + "a"
  }

  /** Masking the bait planted between `x` and `y` leaves exactly `x***y`. */
  lemma {:induction false} PlantedMask(x: string, y: string, n: nat)
    requires |x| <= n && |y| <= n
    ensures ReplaceAll(x + Bait(n) + y, Bait(n)) == x + MASK + y
    decreases |x|
  {
    var t := Bait(n);
    var text := x + t + y;
    if x == "" {
      assert text[..|t|] == t;
      assert text[|t|..] == y;
    } else {
      assert text[..|t|] != t by {
        assert text[n] == t[n - |x|] == 'b';
      }
      assert text[0] == x[0] && text[1..] == x[1..] + t + y;
      PlantedMask(x[1..], y, n);
      assert ReplaceAll(text, t) == [x[0]] + ReplaceAll(text[1..], t);
      assert x + MASK + y == [x[0]] + (x[1..] + MASK + y);
    }
  }

  /** A text in which `s` never occurs is left alone by masking `s`. */
  lemma {:induction false} MaskingNothing(text: string, s: string)
    requires s != "" && !Contains(text, s)
    ensures ReplaceAll(text, s) == text
    decreases |text|
  {
    if |text| >= |s| {
      assert !OccursAt(text, s, 0);
      forall i: nat | OccursAt(text[1..], s, i)
        ensures false
      {
        assert OccursAt(text, s, i + 1);
      }
      MaskingNothing(text[1..], s);
    }
  }

  /** Masking first `s`, then the bait, turns `x + bait + y` into `x***y`. */
  lemma TwoSecrets(s: string, x: string, y: string, n: nat)
    requires s != "" && |x| <= n && |y| <= n
    requires !Contains(x + Bait(n) + y, s)
    ensures MaskEach(x + Bait(n) + y, [s, Bait(n)]) == x + MASK + y
  {
    var text, t := x + Bait(n) + y, Bait(n);
    MaskingNothing(text, s);
    PlantedMask(x, y, n);
    assert [s, t][..1] == [s];
    assert [s][..0] == [];
    assert MaskEach(text, [s]) == text;
  }

  /** Where `s` has a star at index `|x|`, it cannot occur around the bait. */
  lemma NoOccurrenceAroundBait(s: string, x: string, y: string, i: nat)
    requires |x| < |s| && s[|x|] == '*' && |x| + |y| < |s|
    ensures !OccursAt(x + Bait(|s|) + y, s, i)
  {
    var text := x + Bait(|s|) + y;
    if i + |s| <= |text| {
      assert text[i + |x|] == Bait(|s|)[i];
      assert text[i..i + |s|][|x|] != s[|x|];
    }
  }

  /** With a star at index `|x|`, `s` is rebuilt inside `x***y` by masking the bait after it. */
  lemma Rebuilt(s: string, x: string, y: string, at: nat) returns (text: string, secrets: seq<string>)
    requires |x| < |s| && s[|x|] == '*' && |x| + |y| < |s|
    requires OccursAt(x + MASK + y, s, at) && at + |s| <= CUT
    ensures s in secrets && Contains(Scrubbed(text, secrets), s)
  {
    text, secrets := x + Bait(|s|) + y, [s, Bait(|s|)];
    forall i: nat
      ensures !OccursAt(text, s, i)
    {
      NoOccurrenceAroundBait(s, x, y, i);
    }
    TwoSecrets(s, x, y, |s|);
    assert OccursAt(Cut(x + MASK + y), s, at);
  }

  lemma FewLeadingStars(s: string)
    ensures LeadingStars(s) < 3 || Contains(s, MASK)
  {
    if LeadingStars(s) >= 3 {
      assert s[0..3] == MASK;
      assert OccursAt(s, MASK, 0);
    }
  }

  lemma EndSurvives(s: string) returns (text: string, secrets: seq<string>)
    requires EndsInStar(s) && |s| <= CUT
    ensures s in secrets && Contains(Scrubbed(text, secrets), s)
  {
    var x := s[..|s| - 1];
    assert s == (x + MASK + "")[..|s|];
    text, secrets := Rebuilt(s, x, "", 0);
  }

  lemma MiddleSurvives(s: string) returns (text: string, secrets: seq<string>)
    requires Contains(s, MASK) && |s| <= CUT
    ensures s in secrets && Contains(Scrubbed(text, secrets), s)
  {
    var k: nat :| OccursAt(s, MASK, k);
    assert s[k] == s[k..k + 3][0] == '*';
    assert s == s[..k] + MASK + s[k + 3..];
    text, secrets := Rebuilt(s, s[..k], s[k + 3..], 0);
  }

  lemma BeginningSurvives(s: string) returns (text: string, secrets: seq<string>)
    requires 0 < LeadingStars(s) < 3 && |s| + 3 - LeadingStars(s) <= CUT
    ensures s in secrets && Contains(Scrubbed(text, secrets), s)
  {
    var lead := LeadingStars(s);
    assert s == ("" + MASK + s[lead..])[3 - lead..];
    text, secrets := Rebuilt(s, "", s[lead..], 3 - lead);
  }

  /** The text and the list of secrets by which a mask rebuilds a secret that can survive. */
  lemma SurvivorExists(s: string) returns (text: string, secrets: seq<string>)
    requires s != "" && CanSurvive(s)
    ensures s in secrets && Contains(Scrubbed(text, secrets), s)
  {
    FewLeadingStars(s);
    if EndsInStar(s) {
      text, secrets := EndSurvives(s);
    } else if Contains(s, MASK) {
      text, secrets := MiddleSurvives(s);
    } else {
      text, secrets := BeginningSurvives(s);
    }
  }

  /** A secret is removed from every text under every list of secrets exactly when it is not `CanSurvive`. */
  lemma ScrubGuarantee(s: string)
    requires s != ""
    ensures (forall text: string, secrets: seq<string> {:trigger Scrubbed(text, secrets)} ::
               s in secrets ==> !Contains(Scrubbed(text, secrets), s))
            <==> !CanSurvive(s)
  {
    if CanSurvive(s) {
      var text, secrets := SurvivorExists(s);
    } else {
      forall text: string, secrets: seq<string> | s in secrets
        ensures !Contains(Scrubbed(text, secrets), s)
      {
        ScrubbedForGood(text, secrets, s);
      }
    }
  }

  /** In particular no star-free secret ever comes through, even beside secrets made of stars. */
  lemma StarFreeSecretsNeverLeak(text: string, secrets: seq<string>, s: string)
    requires s != "" && s in secrets && '*' !in s
    ensures !Contains(Scrubbed(text, secrets), s)
  {
    forall i: nat
      ensures !OccursAt(s, MASK, i)
    {
      if i + 3 <= |s| {
        assert s[i..i + 3][0] != MASK[0];
      }
    }
    ScrubbedForGood(text, secrets, s);
  }

  // ---- What is left alone --------------------------------------------------------------

  /** A text that holds no secret comes through as it is, but for the cut. */
  lemma {:induction false} CleanTextStays(text: string, secrets: seq<string>)
    requires forall s :: s in secrets && s != "" ==> !Contains(text, s)
    ensures MaskEach(text, secrets) == text
    ensures Scrubbed(text, secrets) <= text && |Scrubbed(text, secrets)| == if |text| <= 300 then |text| else 300
  {
    if secrets != [] {
      var init, last := secrets[..|secrets| - 1], secrets[|secrets| - 1];
      assert forall s :: s in init ==> s in secrets;
      CleanTextStays(text, init);
      assert last in secrets;
      if last != "" {
        MaskingNothing(text, last);
      }
    }
  }
}
