/** Which driver's group an alert belongs to (`src/routing.js`): pure choices over what the database holds. */
module Routing {
  import opened Wrappers

  datatype Group = Group(id: int, telegramId: string, name: string)

  predicate IsDigit(c: char) { '0' <= c <= '9' }

  function Lower(c: char): char {
    if 'A' <= c <= 'Z' then (c as int - 'A' as int + 'a' as int) as char else c
  }

  predicate IsAlnum(c: char) { 'a' <= c <= 'z' || IsDigit(c) }

  function Digits(s: string): string {
    if s == "" then "" else (if IsDigit(s[0]) then [s[0]] else "") + Digits(s[1..])
  }

  function LeadingDigits(s: string): string {
    if s != "" && IsDigit(s[0]) then [s[0]] + LeadingDigits(s[1..]) else ""
  }

  /** The first number in a text, or the empty text. */
  function ExtractUnitNumber(s: string): string {
    if s == "" then "" else if IsDigit(s[0]) then LeadingDigits(s) else ExtractUnitNumber(s[1..])
  }

  /** The words of the rest of a name, one space between them; `gap`: a space is due before the next one. */
  function Words(s: string, started: bool, gap: bool): string {
    if s == "" then ""
    else
      var c := Lower(s[0]);
      if IsAlnum(c) then (if started && gap then " " else "") + [c] + Words(s[1..], true, false)
      else Words(s[1..], started, true)
  }

  function NormalizeName(s: string): string {
    Words(s, false, false)
  }

  /** Normalizing a name twice is normalizing it once: a hint and a title meet in one form. */
  lemma {:induction false} WordsStayWords(s: string, started: bool, gap: bool)
    ensures Words(Words(s, started, gap), started, false) == Words(s, started, gap)
  {
    if s != "" {
      var c := Lower(s[0]);
      if IsAlnum(c) {
        WordsStayWords(s[1..], true, false);
        var rest := Words(s[1..], true, false);
        assert ([c] + rest)[1..] == rest;
        if started && gap {
          var t := " " + [c] + rest;
          assert t[1..] == [c] + rest;
          assert !IsAlnum(Lower(t[0]));
        }
      } else {
        WordsStayWords(s[1..], started, true);
      }
    }
  }

  predicate PartAt(part: string, whole: string, i: int) {
    0 <= i <= |whole| - |part| && whole[i..i + |part|] == part
  }

  predicate IsPart(part: string, whole: string) {
    exists i :: 0 <= i <= |whole| - |part| && PartAt(part, whole, i)
  }

  function UnitMatches(candidates: seq<Group>, unit: string): (matches: seq<Group>)
    ensures forall g :: g in matches <==> g in candidates && ExtractUnitNumber(g.name) == unit
  {
    if candidates == [] then []
    else (if ExtractUnitNumber(candidates[0].name) == unit then [candidates[0]] else [])
         + UnitMatches(candidates[1..], unit)
  }

  predicate Hinted(group: Group, hints: seq<string>) {
    exists hint :: hint in hints && |NormalizeName(hint)| >= 3 && IsPart(NormalizeName(hint), NormalizeName(group.name))
  }

  function FirstHinted(groups: seq<Group>, hints: seq<string>): (found: Option<Group>)
    ensures found.Some? ==> found.value in groups && Hinted(found.value, hints)
    ensures found.None? ==> forall g :: g in groups ==> !Hinted(g, hints)
    ensures found.Some? ==> exists k :: 0 <= k < |groups| && groups[k] == found.value
                                        && forall j :: 0 <= j < k ==> !Hinted(groups[j], hints)
  {
    if groups == [] then None
    else if Hinted(groups[0], hints) then Some(groups[0])
    else FirstHinted(groups[1..], hints)
  }

  function ResolveGroupByUnitAndName(candidates: seq<Group>, unitNumber: string, hints: seq<string>): Option<Group> {
    var unit := Digits(unitNumber);
    var matches := UnitMatches(candidates, unit);
    if unit == "" || matches == [] then None
    else if |matches| == 1 then Some(matches[0])
    else FirstHinted(matches, hints)
  }

  /**
    The parse finds a group exactly when one group alone carries the number, or
    several do and a name tells them apart; it never finds a group of another number.
  */
  lemma ParseIsNoGuess(candidates: seq<Group>, unitNumber: string, hints: seq<string>)
    ensures var found := ResolveGroupByUnitAndName(candidates, unitNumber, hints);
            var matches := UnitMatches(candidates, Digits(unitNumber));
      && (found.Some? ==> found.value in candidates && ExtractUnitNumber(found.value.name) == Digits(unitNumber) != "")
      && (found.Some? <==> Digits(unitNumber) != "" && (|matches| == 1 || exists g :: g in matches && Hinted(g, hints)))
      && (found.Some? && |matches| > 1 ==> Hinted(found.value, hints))
  {
    var matches := UnitMatches(candidates, Digits(unitNumber));
    if |matches| == 1 {
      assert matches[0] in matches;
    }
  }

  lemma OneMore(first: Group, rest: seq<Group>, unit: string)
    ensures UnitMatches([first] + rest, unit) == UnitMatches([first], unit) + UnitMatches(rest, unit)
  {
    hide ExtractUnitNumber;
    assert ([first] + rest)[1..] == rest;
  }

  lemma {:induction false} MatchesOf(a: seq<Group>, b: seq<Group>, unit: string)
    ensures UnitMatches(a + b, unit) == UnitMatches(a, unit) + UnitMatches(b, unit)
  {
    hide UnitMatches;
    if a == [] {
      assert a + b == b;
      NoMatches([], unit);
    } else {
      assert a == [a[0]] + a[1..];
      assert a + b == [a[0]] + (a[1..] + b);
      MatchesOf(a[1..], b, unit);
      OneMore(a[0], a[1..], unit);
      OneMore(a[0], a[1..] + b, unit);
    }
  }

  /** Groups of other numbers make no difference to the parse, wherever they stand among the candidates. */
  lemma OtherNumbersMakeNoDifference(before: seq<Group>, others: seq<Group>, after: seq<Group>, unitNumber: string,
                                     hints: seq<string>)
    requires forall g :: g in others ==> ExtractUnitNumber(g.name) != Digits(unitNumber)
    ensures ResolveGroupByUnitAndName(before + others + after, unitNumber, hints)
            == ResolveGroupByUnitAndName(before + after, unitNumber, hints)
  {
    hide ExtractUnitNumber, Digits, FirstHinted, UnitMatches;
    var unit := Digits(unitNumber);
    MatchesOf(before + others, after, unit);
    MatchesOf(before, others, unit);
    MatchesOf(before, after, unit);
    NoMatches(others, unit);
    assert UnitMatches(before, unit) + [] == UnitMatches(before, unit);
  }

  lemma NoMatches(others: seq<Group>, unit: string)
    requires forall g :: g in others ==> ExtractUnitNumber(g.name) != unit
    ensures UnitMatches(others, unit) == []
  {
    hide ExtractUnitNumber;
    var matches := UnitMatches(others, unit);
    assert forall i :: 0 <= i < |matches| ==> matches[i] in matches;
  }

  // ---- Which resolution wins --------------------------------------------------------------

  const ROUTED_BY_NAME := "integrations.samsara_routed_by_name"
  const DISAGREEMENT := "integrations.samsara_routing_disagreement"
  const CONTESTED := "integrations.samsara_vehicle_link_contested"

  datatype Severity = Info | Serious

  /** What a finding says: the groups that claim the vehicle and the one its label names. */
  datatype Finding = Finding(checkKey: string, subjectId: string, severity: Severity, claims: seq<int>,
                             parsedId: Option<int>)

  datatype Choice = Choice(group: Option<Group>, finding: Option<Finding>)

  /** The vehicle a finding is about: its Samsara id, or its unit when it has none. */
  function RoutingSubjectId(vehicleId: string, unitNumber: string): string {
    if vehicleId != "" then vehicleId else "unit:" + (if unitNumber != "" then unitNumber else "unknown")
  }

  function IdOf(group: Option<Group>): Option<int> {
    if group.Some? then Some(group.value.id) else None
  }

  /** `claims`: every active driver group holding a stored link to the vehicle. */
  function ChooseRoutedGroup(claims: seq<Group>, parsed: Option<Group>, subjectId: string): Choice {
    var claimIds := seq(|claims|, i requires 0 <= i < |claims| => claims[i].id);
    if |claims| > 1 then Choice(parsed, Some(Finding(CONTESTED, subjectId, Serious, claimIds, IdOf(parsed))))
    else if |claims| == 1 then
      Choice(Some(claims[0]),
             if parsed.Some? && parsed.value.id != claims[0].id
             then Some(Finding(DISAGREEMENT, subjectId, Serious, claimIds, IdOf(parsed))) else None)
    else if parsed.Some? then Choice(parsed, Some(Finding(ROUTED_BY_NAME, subjectId, Info, [], IdOf(parsed))))
    else Choice(None, None)
  }

  /** The routed group is the stored or the parsed candidate, the stored one when it is the only claim. */
  lemma RoutedIsACandidate(claims: seq<Group>, parsed: Option<Group>, subjectId: string)
    ensures var choice := ChooseRoutedGroup(claims, parsed, subjectId);
      && (choice.group == parsed || (|claims| == 1 && choice.group == Some(claims[0])))
      && (|claims| == 1 ==> choice.group == Some(claims[0]))
      && (choice.group.None? <==> parsed.None? && |claims| != 1)
      && (choice.finding.None? <==>
            (|claims| == 1 && (parsed.None? || parsed.value.id == claims[0].id)) || (claims == [] && parsed.None?))
      && (choice.finding.Some? ==>
            var f := choice.finding.value;
            && f.subjectId == subjectId && f.parsedId == IdOf(parsed)
            && f.claims == seq(|claims|, i requires 0 <= i < |claims| => claims[i].id)
            && f.checkKey == (if claims == [] then ROUTED_BY_NAME
                              else if |claims| == 1 then DISAGREEMENT else CONTESTED)
            && (f.severity.Info? <==> claims == []))
  {}

  // ---- What numbers and names are ------------------------------------------------------------

  /** `u` stands at `i`, is a number, is not followed by another digit, and is the first. */
  ghost predicate FirstNumberAt(s: string, u: string, i: nat) {
    && i + |u| <= |s| && s[i..i + |u|] == u
    && (forall k :: 0 <= k < |u| ==> '0' <= u[k] <= '9')
    && (forall k :: 0 <= k < i ==> !('0' <= s[k] <= '9'))
    && (i + |u| < |s| ==> !('0' <= s[i + |u|] <= '9'))
  }

  lemma {:induction false} LeadingIsFirst(s: string)
    requires s != "" && IsDigit(s[0])
    ensures LeadingDigits(s) != "" && FirstNumberAt(s, LeadingDigits(s), 0)
  {
    var rest := LeadingDigits(s[1..]);
    if |s| > 1 && IsDigit(s[1]) {
      LeadingIsFirst(s[1..]);
    }
    assert LeadingDigits(s) == [s[0]] + rest;
    assert s[..1 + |rest|] == [s[0]] + s[1..][..|rest|];
  }

  /** The unit of a label is the first whole number in it, and none only if it holds no digit. */
  lemma {:induction false} UnitIsFirstNumber(s: string)
    ensures var u := ExtractUnitNumber(s);
            if u == "" then forall k :: 0 <= k < |s| ==> !('0' <= s[k] <= '9')
            else exists i: nat :: FirstNumberAt(s, u, i)
  {
    if s != "" {
      if IsDigit(s[0]) {
        LeadingIsFirst(s);
      } else {
        UnitIsFirstNumber(s[1..]);
        var u := ExtractUnitNumber(s);
        if u != "" {
          var i: nat :| FirstNumberAt(s[1..], u, i);
          NumberFurther(s, u, i);
        } else {
          assert forall k :: 0 < k < |s| ==> s[k] == s[1..][k - 1];
        }
      }
    }
  }

  lemma NumberFurther(s: string, u: string, i: nat)
    requires s != "" && !IsDigit(s[0]) && FirstNumberAt(s[1..], u, i)
    ensures FirstNumberAt(s, u, i + 1)
  {
    assert s[i + 1..i + 1 + |u|] == s[1..][i..i + |u|];
    forall k | 0 <= k < i + 1
      ensures !('0' <= s[k] <= '9')
    {
      if k > 0 {
        assert s[k] == s[1..][k - 1];
      }
    }
  }

  function IfDigit(c: char): string {
    if '0' <= c <= '9' then [c] else ""
  }

  lemma DigitsFirst(c: char, rest: string)
    ensures Digits([c] + rest) == IfDigit(c) + Digits(rest)
  {
    assert ([c] + rest)[1..] == rest;
  }

  /** Of a unit number its digits count, all of them, in order. */
  lemma {:induction false} DigitsInOrder(a: string, c: char, b: string)
    ensures Digits(a + [c] + b) == Digits(a) + IfDigit(c) + Digits(b)
  {
    if a == "" {
      assert a + [c] + b == [c] + b;
      DigitsFirst(c, b);
    } else {
      hide Digits, IfDigit;
      var rest := a[1..] + [c] + b;
      assert a + [c] + b == [a[0]] + rest && a == [a[0]] + a[1..];
      DigitsFirst(a[0], rest);
      DigitsFirst(a[0], a[1..]);
      DigitsInOrder(a[1..], c, b);
    }
  }

  /** No space is due before the first word. */
  lemma {:induction false} SpaceOnlyBetween(s: string)
    ensures Words(s, false, true) == Words(s, false, false)
    ensures Words(s, true, true) == if NormalizeName(s) == "" then "" else " " + NormalizeName(s)
  {
    if s != "" && !IsAlnum(Lower(s[0])) {
      SpaceOnlyBetween(s[1..]);
    }
  }

  lemma {:induction false} WordsAcross(a: string, c: char, b: string, started: bool, gap: bool)
    requires !IsAlnum(Lower(c))
    ensures Words(a + [c] + b, started, gap)
            == Words(a, started, gap) + Words(b, started || Words(a, started, gap) != "", true)
  {
    var whole := a + [c] + b;
    if a == "" {
      assert whole[0] == c && whole[1..] == b;
    } else {
      assert whole[0] == a[0] && whole[1..] == a[1..] + [c] + b;
      if IsAlnum(Lower(a[0])) {
        WordsAcross(a[1..], c, b, true, false);
      } else {
        WordsAcross(a[1..], c, b, started, true);
      }
    }
  }

  predicate IsLetterOrDigit(c: char) {
    'a' <= c <= 'z' || 'A' <= c <= 'Z' || '0' <= c <= '9'
  }

  /** Whatever is neither a letter nor a digit separates words, and between two words there is one space. */
  lemma NameSplits(a: string, c: char, b: string)
    requires !IsLetterOrDigit(c)
    ensures var x, y := NormalizeName(a), NormalizeName(b);
            NormalizeName(a + [c] + b) == if x == "" then y else if y == "" then x else x + " " + y
  {
    WordsAcross(a, c, b, false, false);
    SpaceOnlyBetween(b);
  }

  /** A letter is the same in both cases, a digit is itself. */
  ghost predicate SameLetter(c: char, d: char) {
    || (c == d && ('a' <= c <= 'z' || '0' <= c <= '9'))
    || ('A' <= c <= 'Z' && 'a' <= d <= 'z' && d as int == c as int + 32)
  }

  lemma LowerIsSameLetter(c: char)
    requires IsLetterOrDigit(c)
    ensures IsAlnum(Lower(c)) && SameLetter(c, Lower(c))
  {}

  /** A word stays, letter by letter, in lower case. */
  lemma {:induction false} WordIsLowered(s: string, started: bool)
    requires forall k :: 0 <= k < |s| ==> IsLetterOrDigit(s[k])
    ensures var w := Words(s, started, false);
            |w| == |s| && forall k :: 0 <= k < |s| ==> SameLetter(s[k], w[k])
  {
    hide SameLetter;
    if s != "" {
      WordIsLowered(s[1..], true);
      LowerIsSameLetter(s[0]);
      var w := Words(s, started, false);
      assert w == [Lower(s[0])] + Words(s[1..], true, false);
      forall k | 0 <= k < |s|
        ensures SameLetter(s[k], w[k])
      {
        if k > 0 {
          assert s[k] == s[1..][k - 1] && w[k] == Words(s[1..], true, false)[k - 1];
        }
      }
    }
  }

  /** A hint tells a group apart when, normalized, it is three characters at least and stands in the group's title. */
  lemma HintStandsInTitle(group: Group, hints: seq<string>, hint: string, before: string, after: string)
    requires hint in hints && NormalizeName(group.name) == before + NormalizeName(hint) + after
    ensures |NormalizeName(hint)| >= 3 ==> Hinted(group, hints)
  {
    if |NormalizeName(hint)| >= 3 {
      assert PartAt(NormalizeName(hint), NormalizeName(group.name), |before|);
      assert IsPart(NormalizeName(hint), NormalizeName(group.name));
    }
  }

  lemma HintedByATitle(group: Group, hints: seq<string>) returns (hint: string, before: string, after: string)
    requires Hinted(group, hints)
    ensures hint in hints && |NormalizeName(hint)| >= 3
    ensures NormalizeName(group.name) == before + NormalizeName(hint) + after
  {
    hint :| hint in hints && |NormalizeName(hint)| >= 3 && IsPart(NormalizeName(hint), NormalizeName(group.name));
    var part, whole := NormalizeName(hint), NormalizeName(group.name);
    var i :| 0 <= i <= |whole| - |part| && PartAt(part, whole, i);
    before, after := whole[..i], whole[i + |part|..];
  }

  /** Two alerts are about one subject only if they name one vehicle, or one unit and no vehicle. */
  lemma SubjectsApart(vehicleA: string, unitA: string, vehicleB: string, unitB: string)
    ensures var same := RoutingSubjectId(vehicleA, unitA) == RoutingSubjectId(vehicleB, unitB);
      && (vehicleA != "" && vehicleB != "" ==> (same <==> vehicleA == vehicleB))
      && (vehicleA == "" && vehicleB == "" ==>
            (same <==> unitA == unitB || {unitA, unitB} == {"", "unknown"}))
      && (vehicleA != "" && vehicleB == "" ==>
            (same <==> vehicleA == "unit:" + if unitB == "" then "unknown" else unitB))
  {
    if vehicleA == "" && vehicleB == "" {
      var a, b := if unitA != "" then unitA else "unknown", if unitB != "" then unitB else "unknown";
      assert ("unit:" + a)[5..] == a && ("unit:" + b)[5..] == b;
    }
  }
}
