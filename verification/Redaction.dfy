/** The sensitive-content scanner and the redaction built on it (src/agent_memory_gateway/security.py).
    A regular expression is the list of matches one pass over the text yields, left to right and disjoint. */
module Redaction {
  import opened TextOrder

  /** discarded: the rule's own filter (placeholder, code expression, shell variable) drops the match. */
  datatype Match = Match(start: nat, end: nat, discarded: bool)

  datatype RuleMatches = RuleMatches(category: string, rule: string, matches: seq<Match>)

  datatype Finding = Finding(category: string, rule: string, start: nat, end: nat)

  predicate Overlaps(a: Finding, b: Finding) {
    a.start < b.end && a.end > b.start
  }

  predicate Taken(f: Finding, occupied: seq<Finding>) {
    exists i | 0 <= i < |occupied| :: Overlaps(f, occupied[i])
  }

  // ---- checksums

  function Digits(text: string): (digits: seq<int>)
    ensures forall i | 0 <= i < |digits| :: 0 <= digits[i] <= 9
  {
    if text == [] then []
    else if '0' <= text[0] <= '9' then [text[0] as int - '0' as int] + Digits(text[1..])
    else Digits(text[1..])
  }

  function LuhnWeight(digit: int, doubled: bool): int {
    if !doubled then digit else if 2 * digit > 9 then 2 * digit - 9 else 2 * digit
  }

  /** The weighted sum of the first n digits, doubling those whose index has the parity of the length. */
  function LuhnSum(digits: seq<int>, n: nat): int
    requires n <= |digits|
  {
    if n == 0 then 0 else LuhnSum(digits, n - 1) + LuhnWeight(digits[n - 1], (n - 1) % 2 == |digits| % 2)
  }

  predicate AllSame(digits: seq<int>) {
    forall i | 0 <= i < |digits| :: digits[i] == digits[0]
  }

  predicate CardNumber(candidate: string) {
    var digits := Digits(candidate);
    13 <= |digits| <= 19 && !AllSame(digits) && LuhnSum(digits, |digits|) % 10 == 0
  }

  method LuhnValid(candidate: string) returns (valid: bool)
    ensures valid == CardNumber(candidate)
  {
    var digits := Digits(candidate);
    if !(13 <= |digits| <= 19) || AllSame(digits) { return false; }
    var total, index := 0, 0;
    while index < |digits|
      invariant index <= |digits| && total == LuhnSum(digits, index)
    {
      var digit := digits[index];
      if index % 2 == |digits| % 2 {
        digit := digit * 2;
        if digit > 9 { digit := digit - 9; }
      }
      total := total + digit;
      index := index + 1;
    }
    return total % 10 == 0;
  }

  lemma {:induction false} LuhnSumSplits(digits: seq<int>, other: seq<int>, n: nat, i: nat)
    requires |digits| == |other| && n <= |digits| && i < |digits|
    requires forall k | 0 <= k < |digits| && k != i :: digits[k] == other[k]
    ensures var doubled := i % 2 == |digits| % 2;
      LuhnSum(digits, n) - LuhnSum(other, n) == if i < n then LuhnWeight(digits[i], doubled) - LuhnWeight(other[i], doubled) else 0
  {
    if n > 0 { LuhnSumSplits(digits, other, n - 1, i); }
  }

  /** A single mistyped digit always breaks the checksum. */
  lemma LuhnCatchesWrongDigit(digits: seq<int>, i: nat, digit: int)
    requires i < |digits| && (forall k | 0 <= k < |digits| :: 0 <= digits[k] <= 9) && 0 <= digit <= 9 && digit != digits[i]
    requires LuhnSum(digits, |digits|) % 10 == 0
    ensures LuhnSum(digits[i := digit], |digits|) % 10 != 0
  {
    LuhnSumSplits(digits, digits[i := digit], |digits|, i);
    var doubled := i % 2 == |digits| % 2;
    hide LuhnSum;
    WeightsDiffer(digits[i], digit, doubled);
    hide LuhnWeight;
    Shifted(LuhnSum(digits, |digits|), LuhnSum(digits[i := digit], |digits|), LuhnWeight(digits[i], doubled) - LuhnWeight(digit, doubled));
  }

  lemma WeightsDiffer(a: int, b: int, doubled: bool)
    requires 0 <= a <= 9 && 0 <= b <= 9 && a != b
    ensures (LuhnWeight(a, doubled) - LuhnWeight(b, doubled)) % 10 != 0
  {
  }

  /** Swapping two neighbours is caught exactly when they differ and are not 0 and 9. */
  lemma LuhnCatchesSwap(digits: seq<int>, i: nat)
    requires i + 1 < |digits| && forall k | 0 <= k < |digits| :: 0 <= digits[k] <= 9
    requires LuhnSum(digits, |digits|) % 10 == 0
    ensures var a, b := digits[i], digits[i + 1];
      LuhnSum(digits[i := b][i + 1 := a], |digits|) % 10 != 0 <==> a != b && !(a == 0 && b == 9) && !(a == 9 && b == 0)
  {
    var a, b, doubled := digits[i], digits[i + 1], i % 2 == |digits| % 2;
    hide LuhnSum, LuhnWeight;
    var once := digits[i := b];
    var swapped := once[i + 1 := a];
    LuhnSumSplits(digits, once, |digits|, i);
    LuhnSumSplits(once, swapped, |digits|, i + 1);
    NextParity(i, |digits|);
    SwapMoves(a, b, doubled);
    Shifted(LuhnSum(digits, |digits|), LuhnSum(swapped, |digits|),
            LuhnWeight(a, doubled) - LuhnWeight(b, doubled) + LuhnWeight(b, !doubled) - LuhnWeight(a, !doubled));
  }

  lemma NextParity(i: nat, n: nat)
    ensures (i + 1) % 2 == n % 2 <==> i % 2 != n % 2
  {
  }

  lemma Shifted(sum: int, other: int, d: int)
    requires sum - other == d && sum % 10 == 0
    ensures other % 10 == 0 <==> d % 10 == 0
  {
  }

  lemma SwapMoves(a: int, b: int, doubled: bool)
    requires 0 <= a <= 9 && 0 <= b <= 9
    ensures (LuhnWeight(a, doubled) - LuhnWeight(b, doubled) + LuhnWeight(b, !doubled) - LuhnWeight(a, !doubled)) % 10 == 0
       <==> a == b || (a == 0 && b == 9) || (a == 9 && b == 0)
  {
  }

  const ID_WEIGHTS := [7, 9, 10, 5, 8, 4, 2, 1, 6, 3, 7, 9, 10, 5, 8, 4, 2]
  const ID_CHECKS := "10X98765432"

  function Upper(c: char): char {
    if c == 'x' then 'X' else c
  }

  predicate IsDigit(c: char) {
    '0' <= c <= '9'
  }

  function IdSum(candidate: string, n: nat): int
    requires n <= |candidate| && n <= 17
  {
    if n == 0 then 0
    else IdSum(candidate, n - 1) + (candidate[n - 1] as int - '0' as int) * ID_WEIGHTS[n - 1]
  }

  predicate ResidentId(candidate: string) {
    && |candidate| == 18 && (forall i | 0 <= i < 17 :: IsDigit(candidate[i]))
    && (IsDigit(candidate[17]) || Upper(candidate[17]) == 'X')
    && ID_CHECKS[IdSum(candidate, 17) % 11] == Upper(candidate[17])
  }

  lemma {:induction false} IdSumSplits(candidate: string, other: string, n: nat, i: nat)
    requires |candidate| == |other| == 18 && n <= 17 && i < 17
    requires forall k | 0 <= k < 17 && k != i :: candidate[k] == other[k]
    ensures IdSum(candidate, n) - IdSum(other, n)
         == if i < n then (candidate[i] as int - other[i] as int) * ID_WEIGHTS[i] else 0
  {
    if n > 0 { IdSumSplits(candidate, other, n - 1, i); }
  }

  /** No weight shares a factor with 11, so one wrong digit moves the check character. */
  lemma WeightsAreUnits(d: int, i: nat)
    requires i < 17 && -9 <= d <= 9 && d != 0
    ensures (d * ID_WEIGHTS[i]) % 11 != 0
  {
    var w := ID_WEIGHTS[i];
    assert w == 7 || w == 9 || w == 10 || w == 5 || w == 8 || w == 4 || w == 2 || w == 1 || w == 6 || w == 3;
  }

  lemma IdCatchesWrongDigit(candidate: string, i: nat, digit: char)
    requires ResidentId(candidate) && i < 17 && IsDigit(digit) && digit != candidate[i]
    ensures !ResidentId(candidate[i := digit])
  {
    var other := candidate[i := digit];
    IdSumSplits(candidate, other, 17, i);
    var d := candidate[i] as int - digit as int;
    WeightsAreUnits(d, i);
    if ResidentId(other) {
      ChecksAreDistinct(IdSum(candidate, 17) % 11, IdSum(other, 17) % 11);
      SameResidue(IdSum(candidate, 17), IdSum(other, 17));
    }
  }

  lemma SameResidue(a: int, b: int)
    requires a % 11 == b % 11
    ensures (a - b) % 11 == 0
  {
  }

  lemma ChecksAreDistinct(r: nat, q: nat)
    requires r < 11 && q < 11 && ID_CHECKS[r] == ID_CHECKS[q]
    ensures r == q
  {
  }

  // ---- the scan

  predicate WellFormed(f: Finding, text: string) {
    f.start < f.end <= |text|
  }

  /** One pass of an expression: its matches lie in the text and do not overlap each other. */
  predicate OnePass(matches: seq<Match>, text: string) {
    && (forall i | 0 <= i < |matches| :: matches[i].start < matches[i].end <= |text|)
    && (forall i, j | 0 <= i < j < |matches| :: matches[i].end <= matches[j].start)
  }

  function FindingOf(category: string, rule: string, m: Match): Finding {
    Finding(category, rule, m.start, m.end)
  }

  /** The findings a list of matches proposes, in order, without those its filter drops. */
  function Proposed(category: string, rule: string, matches: seq<Match>): seq<Finding> {
    if matches == [] then []
    else (if matches[0].discarded then [] else [FindingOf(category, rule, matches[0])]) + Proposed(category, rule, matches[1..])
  }

  function ProposedByRules(rules: seq<RuleMatches>): seq<Finding> {
    if rules == [] then []
    else Proposed(rules[0].category, rules[0].rule, rules[0].matches) + ProposedByRules(rules[1..])
  }

  /** First come, first served: a proposal is kept unless it overlaps one kept before it. */
  function Kept(found: seq<Finding>, proposals: seq<Finding>): seq<Finding>
    decreases |proposals|
  {
    if proposals == [] then found
    else Kept(if Taken(proposals[0], found) then found else found + [proposals[0]], proposals[1..])
  }

  predicate Disjoint(findings: seq<Finding>) {
    forall i, j | 0 <= i < |findings| && 0 <= j < |findings| && i != j :: !Overlaps(findings[i], findings[j])
  }

  lemma {:induction false} KeptExtends(found: seq<Finding>, a: seq<Finding>, b: seq<Finding>)
    ensures Kept(found, a + b) == Kept(Kept(found, a), b)
    decreases |a|
  {
    if a == [] {
      assert a + b == b;
    } else {
      assert (a + b)[1..] == a[1..] + b;
      KeptExtends(if Taken(a[0], found) then found else found + [a[0]], a[1..], b);
    }
  }

  /** The kept findings are disjoint, come from the proposals, and leave no proposal uncovered. */
  lemma {:induction false} KeptCovers(found: seq<Finding>, proposals: seq<Finding>)
    requires Disjoint(found)
    requires forall i | 0 <= i < |proposals| :: proposals[i].start < proposals[i].end
    ensures var kept := Kept(found, proposals);
      && Disjoint(kept) && |found| <= |kept| && kept[..|found|] == found
      && (forall i | |found| <= i < |kept| :: kept[i] in proposals)
      && (forall p <- proposals :: Taken(p, kept))
    decreases |proposals|
  {
    if proposals != [] {
      var p := proposals[0];
      var next := if Taken(p, found) then found else found + [p];
      KeptCovers(next, proposals[1..]);
      var kept := Kept(found, proposals);
      assert kept[..|found|] == kept[..|next|][..|found|];
      if Taken(p, found) {
        var i :| 0 <= i < |found| && Overlaps(p, found[i]);
        assert kept[i] == kept[..|found|][i];
      } else {
        assert kept[|found|] == kept[..|next|][|found|] == p;
      }
      assert forall q <- proposals :: q == p || q in proposals[1..];
      assert Taken(p, kept);
    }
  }

  predicate PositionBefore(a: Finding, b: Finding) {
    a.start < b.start || (a.start == b.start && (a.end < b.end || (a.end == b.end && Before(a.rule, b.rule))))
  }

  function Insert(f: Finding, findings: seq<Finding>): seq<Finding> {
    if findings == [] || PositionBefore(f, findings[0]) then [f] + findings
    else [findings[0]] + Insert(f, findings[1..])
  }

  /** sorted(findings, key = (start, end, rule_id)). */
  function InOrder(findings: seq<Finding>): seq<Finding> {
    if findings == [] then [] else Insert(findings[|findings| - 1], InOrder(findings[..|findings| - 1]))
  }

  /** Left to right, each finding ends before the next one starts. */
  predicate Ladder(findings: seq<Finding>, text: string) {
    && (forall i | 0 <= i < |findings| :: WellFormed(findings[i], text))
    && (forall i, j | 0 <= i < j < |findings| :: findings[i].end <= findings[j].start)
  }

  lemma {:induction false} InsertAdds(f: Finding, findings: seq<Finding>)
    ensures multiset(Insert(f, findings)) == multiset(findings) + multiset{f}
    decreases |findings|
  {
    if findings != [] && !PositionBefore(f, findings[0]) {
      assert findings == [findings[0]] + findings[1..];
      InsertAdds(f, findings[1..]);
    }
  }

  lemma InsertMembers(f: Finding, findings: seq<Finding>)
    ensures forall g <- Insert(f, findings) :: g == f || g in findings
  {
    InsertAdds(f, findings);
    forall g <- Insert(f, findings) ensures g == f || g in findings {
      assert g in multiset(Insert(f, findings));
    }
  }

  lemma {:induction false} InsertKeepsLadder(f: Finding, findings: seq<Finding>, text: string)
    requires Ladder(findings, text) && WellFormed(f, text)
    requires forall i | 0 <= i < |findings| :: !Overlaps(f, findings[i])
    ensures Ladder(Insert(f, findings), text)
    decreases |findings|
  {
    if findings != [] {
      if PositionBefore(f, findings[0]) {
        assert forall j | 0 <= j < |findings| :: f.end <= findings[j].start;
      } else {
        InsertKeepsLadder(f, findings[1..], text);
        InsertMembers(f, findings[1..]);
        PrependKeepsLadder(findings[0], Insert(f, findings[1..]), text);
      }
    }
  }

  lemma PrependKeepsLadder(f: Finding, rest: seq<Finding>, text: string)
    requires Ladder(rest, text) && WellFormed(f, text) && forall g <- rest :: f.end <= g.start
    ensures Ladder([f] + rest, text)
  {
  }

  lemma {:induction false} OrderingKeepsFindings(findings: seq<Finding>, text: string)
    requires Disjoint(findings) && forall i | 0 <= i < |findings| :: WellFormed(findings[i], text)
    ensures Ladder(InOrder(findings), text) && multiset(InOrder(findings)) == multiset(findings)
    decreases |findings|
  {
    if findings != [] {
      var n := |findings| - 1;
      OrderingKeepsFindings(findings[..n], text);
      forall i | 0 <= i < |InOrder(findings[..n])| ensures !Overlaps(findings[n], InOrder(findings[..n])[i]) {
        assert InOrder(findings[..n])[i] in multiset(findings[..n]);
      }
      InsertKeepsLadder(findings[n], InOrder(findings[..n]), text);
      InsertAdds(findings[n], InOrder(findings[..n]));
      assert findings == findings[..n] + [findings[n]];
    }
  }

  // the digit runs, with the verdict of their checksum

  function Cards(text: string, runs: seq<Match>): (checked: seq<Match>)
    requires forall i | 0 <= i < |runs| :: runs[i].start < runs[i].end <= |text|
  {
    seq(|runs|, i requires 0 <= i < |runs| => runs[i].(discarded := !CardNumber(text[runs[i].start..runs[i].end])))
  }

  function Ids(text: string, runs: seq<Match>): (checked: seq<Match>)
    requires forall i | 0 <= i < |runs| :: runs[i].start < runs[i].end <= |text|
  {
    seq(|runs|, i requires 0 <= i < |runs| => runs[i].(discarded := !ResidentId(text[runs[i].start..runs[i].end])))
  }

  /** Everything the three groups of expressions propose, in the order the scanner tries it. */
  function Proposals(text: string, rules: seq<RuleMatches>, cards: seq<Match>, ids: seq<Match>): seq<Finding>
    requires OnePass(cards, text) && OnePass(ids, text)
  {
    ProposedByRules(rules) + Proposed("payment_card", "payment-card-luhn", Cards(text, cards))
    + Proposed("government_id", "cn-resident-id", Ids(text, ids))
  }

  predicate RulesOnePass(rules: seq<RuleMatches>, text: string) {
    forall i | 0 <= i < |rules| :: OnePass(rules[i].matches, text)
  }

  lemma {:induction false} ProposedAreWellFormed(category: string, rule: string, matches: seq<Match>, text: string)
    requires OnePass(matches, text)
    ensures forall p <- Proposed(category, rule, matches) :: WellFormed(p, text)
    ensures matches != [] ==> forall p <- Proposed(category, rule, matches[1..]) :: matches[0].end <= p.start
    decreases |matches|
  {
    if matches != [] {
      ProposedAreWellFormed(category, rule, matches[1..], text);
      ProposedFrom(category, rule, matches[1..], matches[0].end);
    }
  }

  lemma {:induction false} ProposedFrom(category: string, rule: string, matches: seq<Match>, from: nat)
    requires forall i | 0 <= i < |matches| :: from <= matches[i].start
    ensures forall p <- Proposed(category, rule, matches) :: from <= p.start
    decreases |matches|
  {
    if matches != [] { ProposedFrom(category, rule, matches[1..], from); }
  }

  lemma {:induction false} RuleProposalsAreWellFormed(rules: seq<RuleMatches>, text: string)
    requires RulesOnePass(rules, text)
    ensures forall p <- ProposedByRules(rules) :: WellFormed(p, text)
    decreases |rules|
  {
    if rules != [] {
      assert OnePass(rules[0].matches, text);
      ProposedAreWellFormed(rules[0].category, rules[0].rule, rules[0].matches, text);
      assert forall i | 0 <= i < |rules[1..]| :: rules[1..][i] == rules[i + 1];
      RuleProposalsAreWellFormed(rules[1..], text);
    }
  }

  lemma ProposalsAreWellFormed(text: string, rules: seq<RuleMatches>, cards: seq<Match>, ids: seq<Match>)
    requires RulesOnePass(rules, text) && OnePass(cards, text) && OnePass(ids, text)
    ensures forall p <- Proposals(text, rules, cards, ids) :: WellFormed(p, text)
  {
    RuleProposalsAreWellFormed(rules, text);
    ProposedAreWellFormed("payment_card", "payment-card-luhn", Cards(text, cards), text);
    ProposedAreWellFormed("government_id", "cn-resident-id", Ids(text, ids), text);
  }

  /** What a scan returns: the kept proposals, in text order. */
  function Scanned(text: string, rules: seq<RuleMatches>, cards: seq<Match>, ids: seq<Match>): seq<Finding>
    requires OnePass(cards, text) && OnePass(ids, text)
  {
    InOrder(Kept([], Proposals(text, rules, cards, ids)))
  }

  /** For any match lists: the spans returned are disjoint and in order, each is a match that passed its filter,
      and every match that passed its filter overlaps one of them. */
  lemma ScanCovers(text: string, rules: seq<RuleMatches>, cards: seq<Match>, ids: seq<Match>)
    requires RulesOnePass(rules, text) && OnePass(cards, text) && OnePass(ids, text)
    ensures var found, proposals := Scanned(text, rules, cards, ids), Proposals(text, rules, cards, ids);
      && Ladder(found, text)
      && (forall f <- found :: f in proposals)
      && (forall p <- proposals :: Taken(p, found))
  {
    var found, proposals := Scanned(text, rules, cards, ids), Proposals(text, rules, cards, ids);
    ProposalsAreWellFormed(text, rules, cards, ids);
    assert forall i | 0 <= i < |proposals| :: proposals[i] in proposals;
    KeptCovers([], proposals);
    var kept := Kept([], proposals);
    OrderingKeepsFindings(kept, text);
    forall f <- found ensures f in proposals { assert f in multiset(found); }
    forall p <- proposals ensures Taken(p, found) {
      var i :| 0 <= i < |kept| && Overlaps(p, kept[i]);
      assert kept[i] in multiset(found);
      var j :| 0 <= j < |found| && found[j] == kept[i];
    }
  }

  /** A later match of one pass overlaps none of the earlier ones, recorded as occupied or not. */
  lemma LaterIsFree(f: Finding, base: seq<Finding>, added: seq<Finding>)
    requires forall i | 0 <= i < |added| :: added[i].end <= f.start
    ensures Taken(f, base + added) <==> Taken(f, base)
  {
    if Taken(f, base) {
      var i :| 0 <= i < |base| && Overlaps(f, base[i]);
      assert (base + added)[i] == base[i];
    }
    if Taken(f, base + added) {
      var i :| 0 <= i < |base + added| && Overlaps(f, (base + added)[i]);
      assert i < |base|;
    }
  }

  lemma KeptStep(found: seq<Finding>, category: string, rule: string, matches: seq<Match>)
    requires matches != []
    ensures var f := FindingOf(category, rule, matches[0]);
      Kept(found, Proposed(category, rule, matches))
        == Kept(if matches[0].discarded || Taken(f, found) then found else found + [f], Proposed(category, rule, matches[1..]))
  {
    var f, rest := FindingOf(category, rule, matches[0]), Proposed(category, rule, matches[1..]);
    assert ([f] + rest)[1..] == rest;
    assert [] + rest == rest;
  }

  /** Try the matches of one expression against the spans already occupied, occupying as it goes. */
  method ScanPass(category: string, rule: string, matches: seq<Match>, found: seq<Finding>) returns (findings: seq<Finding>)
    ensures findings == Kept(found, Proposed(category, rule, matches))
  {
    findings := found;
    var i := 0;
    while i < |matches|
      invariant i <= |matches|
      invariant Kept(findings, Proposed(category, rule, matches[i..])) == Kept(found, Proposed(category, rule, matches))
    {
      assert matches[i..][1..] == matches[i + 1..];
      KeptStep(findings, category, rule, matches[i..]);
      if !matches[i].discarded && !Taken(FindingOf(category, rule, matches[i]), findings) {
        findings := findings + [FindingOf(category, rule, matches[i])];
      }
      i := i + 1;
    }
  }

  /** The last loop of the scan: it finds, but does not occupy. */
  method ScanIds(text: string, ids: seq<Match>, occupied: seq<Finding>) returns (findings: seq<Finding>)
    requires OnePass(ids, text)
    ensures findings == Kept(occupied, Proposed("government_id", "cn-resident-id", Ids(text, ids)))
  {
    var added: seq<Finding> := [];
    ghost var all := Ids(text, ids);
    assert occupied + added == occupied && all[0..] == all;
    var i := 0;
    while i < |ids|
      invariant i <= |ids|
      invariant forall j | 0 <= j < |added| :: forall k | i <= k < |ids| :: added[j].end <= ids[k].start
      invariant Kept(occupied + added, Proposed("government_id", "cn-resident-id", all[i..]))
             == Kept(occupied, Proposed("government_id", "cn-resident-id", all))
    {
      assert all[i..][1..] == all[i + 1..];
      KeptStep(occupied + added, "government_id", "cn-resident-id", all[i..]);
      var f := FindingOf("government_id", "cn-resident-id", ids[i]);
      LaterIsFree(f, occupied, added);
      if ResidentId(text[ids[i].start..ids[i].end]) && !Taken(f, occupied) {
        assert occupied + added + [f] == occupied + (added + [f]);
        added := added + [f];
      }
      i := i + 1;
    }
    findings := occupied + added;
  }

  method Scan(text: string, rules: seq<RuleMatches>, cards: seq<Match>, ids: seq<Match>) returns (findings: seq<Finding>)
    requires RulesOnePass(rules, text) && OnePass(cards, text) && OnePass(ids, text)
    ensures findings == Scanned(text, rules, cards, ids)
    ensures Ladder(findings, text)
  {
    ScanCovers(text, rules, cards, ids);
    ghost var byRules, byCards := ProposedByRules(rules), Proposed("payment_card", "payment-card-luhn", Cards(text, cards));
    ghost var byIds := Proposed("government_id", "cn-resident-id", Ids(text, ids));
    findings := [];
    var i := 0;
    assert rules[0..] == rules;
    while i < |rules|
      invariant i <= |rules|
      invariant Kept(findings, ProposedByRules(rules[i..])) == Kept([], byRules)
    {
      assert rules[i..][1..] == rules[i + 1..];
      KeptExtends(findings, Proposed(rules[i].category, rules[i].rule, rules[i].matches), ProposedByRules(rules[i + 1..]));
      findings := ScanPass(rules[i].category, rules[i].rule, rules[i].matches, findings);
      i := i + 1;
    }
    var checked := [];
    i := 0;
    while i < |cards|
      invariant i <= |cards| && checked == Cards(text, cards)[..i]
    {
      var valid := LuhnValid(text[cards[i].start..cards[i].end]);
      checked := checked + [cards[i].(discarded := !valid)];
      i := i + 1;
    }
    assert checked == Cards(text, cards);
    findings := ScanPass("payment_card", "payment-card-luhn", checked, findings);
    findings := ScanIds(text, ids, findings);
    KeptExtends([], byRules + byCards, byIds);
    KeptExtends([], byRules, byCards);
    assert findings == Kept([], Proposals(text, rules, cards, ids));
    findings := InOrder(findings);
  }

  // ---- redaction

  function Label(f: Finding): string {
    "[REDACTED:" + f.category + "]"
  }

  /** Left to right: the text up to the next span, its label, and so on. */
  function Redacted(text: string, findings: seq<Finding>, from: nat): string
    requires Ladder(findings, text) && from <= |text| && (findings != [] ==> from <= findings[0].start)
    decreases |findings|
  {
    if findings == [] then text[from..]
    else text[from..findings[0].start] + Label(findings[0]) + Redacted(text, findings[1..], findings[0].end)
  }

  /** Replacing the spans from the right, so that positions stay valid, weaves the same text. */
  method RedactSensitiveText(text: string, rules: seq<RuleMatches>, cards: seq<Match>, ids: seq<Match>) returns (value: string)
    requires RulesOnePass(rules, text) && OnePass(cards, text) && OnePass(ids, text)
    ensures Ladder(Scanned(text, rules, cards, ids), text)
    ensures value == Redacted(text, Scanned(text, rules, cards, ids), 0)
  {
    var findings := Scan(text, rules, cards, ids);
    value := text;
    hide Redacted, Scanned, Label;
    var i := |findings|;
    RedactedNone(text);
    assert text[..|text|] + [] == text;
    while i > 0
      invariant 0 <= i <= |findings| && Ladder(findings[i..], text)
      invariant value == text[..StartAt(findings, i, text)] + Redacted(text, findings[i..], StartAt(findings, i, text))
    {
      ghost var next, later := StartAt(findings, i, text), findings[i..];
      i := i - 1;
      var f := findings[i];
      assert findings[i..][1..] == later;
      RedactedFrom(text, later, f.end, next);
      JoinedPrefix(text, f.end, next, Redacted(text, later, next));
      Splice(text, value, f, Redacted(text, later, f.end));
      RedactedAt(text, findings[i..]);
      value := value[..f.start] + Label(f) + value[f.end..];
    }
    assert findings[0..] == findings;
    RedactedFrom(text, findings, 0, StartAt(findings, 0, text));
    JoinedPrefix(text, 0, StartAt(findings, 0, text), Redacted(text, findings, StartAt(findings, 0, text)));
    assert text[..0] + Redacted(text, findings, 0) == Redacted(text, findings, 0);
  }

  lemma RedactedNone(text: string)
    ensures Redacted(text, [], |text|) == []
  {
  }

  ghost function StartAt(findings: seq<Finding>, i: nat, text: string): (p: nat)
    requires i <= |findings|
  {
    if i < |findings| then findings[i].start else |text|
  }

  lemma Regroup(a: string, b: string, c: string, d: string)
    ensures (a + b) + c + d == a + (b + c + d)
  {
  }

  /** One replacement: what lies right of the span is untouched by it. */
  lemma Splice(text: string, value: string, f: Finding, tail: string)
    requires f.start < f.end <= |text| && value == text[..f.end] + tail
    ensures value[..f.start] + Label(f) + value[f.end..] == text[..f.start] + (Label(f) + tail)
  {
    assert value[f.end..] == tail && value[..f.start] == text[..f.start];
  }

  lemma {:induction false} RedactedAt(text: string, findings: seq<Finding>)
    requires Ladder(findings, text) && findings != []
    ensures Redacted(text, findings, findings[0].start) == Label(findings[0]) + Redacted(text, findings[1..], findings[0].end)
  {
    assert text[findings[0].start..findings[0].start] == [];
    assert [] + Label(findings[0]) == Label(findings[0]);
  }

  lemma JoinedPrefix(text: string, p: nat, q: nat, tail: string)
    requires p <= q <= |text|
    ensures text[..p] + (text[p..q] + tail) == text[..q] + tail
  {
    assert text[..p] + text[p..q] == text[..q];
  }

  lemma RedactedFrom(text: string, findings: seq<Finding>, p: nat, q: nat)
    requires Ladder(findings, text) && p <= q <= |text| && (findings != [] ==> q <= findings[0].start)
    ensures Redacted(text, findings, p) == text[p..q] + Redacted(text, findings, q)
  {
    if findings == [] {
      assert text[p..] == text[p..q] + text[q..];
    } else {
      var s, tail := findings[0].start, Redacted(text, findings[1..], findings[0].end);
      var mark := Label(findings[0]);
      assert text[p..s] == text[p..q] + text[q..s];
      hide Redacted, Label, Ladder;
      Regroup(text[p..q], text[q..s], mark, tail);
    }
  }

  /** Nothing of a span survives: texts that differ only inside the spans redact to the same output. */
  lemma {:induction false} SpansAreErased(text: string, other: string, findings: seq<Finding>, from: nat)
    requires |text| == |other| && Ladder(findings, text) && from <= |text| && (findings != [] ==> from <= findings[0].start)
    requires forall p | from <= p < |text| && (forall i | 0 <= i < |findings| :: !(findings[i].start <= p < findings[i].end)) ::
      text[p] == other[p]
    ensures Ladder(findings, other) && Redacted(text, findings, from) == Redacted(other, findings, from)
    decreases |findings|
  {
    if findings == [] {
      assert text[from..] == other[from..];
    } else {
      var f := findings[0];
      assert text[from..f.start] == other[from..f.start];
      SpansAreErased(text, other, findings[1..], f.end);
    }
  }
}
