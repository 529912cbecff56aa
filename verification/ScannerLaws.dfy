/** What the scanner calls a card number or a resident id, what it reports of them, and what the redaction writes in
    their place (src/agent_memory_gateway/security.py), stated apart from the sums the code computes. */
module ScannerLaws {
  import opened Redaction

  // ---- card numbers: the check digit completes the rest to a multiple of ten

  /** Luhn's sum read from the right: each second digit counts as the digit sum of its double. */
  function FromRight(digits: seq<int>, doubled: bool): int {
    if digits == [] then 0
    else
      var digit := digits[|digits| - 1];
      (if doubled then 2 * digit / 10 + 2 * digit % 10 else digit) + FromRight(digits[..|digits| - 1], !doubled)
  }

  predicate ChecksOut(digits: seq<int>)
    requires digits != []
  {
    var payload, check := digits[..|digits| - 1], digits[|digits| - 1];
    check == (10 - FromRight(payload, true) % 10) % 10
  }

  /** A candidate is a card number exactly when it has 13 to 19 digits, not all alike, the last of which is the check digit
      of the others. */
  lemma CardByCheckDigit(candidate: string)
    ensures CardNumber(candidate) <==>
      && 13 <= |Digits(candidate)| <= 19 && (exists i :: 0 <= i < |Digits(candidate)| && Digits(candidate)[i] != Digits(candidate)[0])
      && ChecksOut(Digits(candidate))
  {
    var digits := Digits(candidate);
    if 13 <= |digits| <= 19 {
      var n := |digits| - 1;
      SumFromRight(digits, n, true);
      hide FromRight, LuhnSum;
      CheckDigitCompletes(FromRight(digits[..n], true), digits[n]);
      assert LuhnSum(digits, n + 1) == FromRight(digits[..n], true) + digits[n] by { LastIsPlain(digits); }
    }
  }

  lemma LastIsPlain(digits: seq<int>)
    requires digits != []
    ensures LuhnSum(digits, |digits|) == LuhnSum(digits, |digits| - 1) + digits[|digits| - 1]
  {
    NextParity(|digits| - 1, |digits|);
  }

  lemma CheckDigitCompletes(sum: int, check: int)
    requires 0 <= check <= 9
    ensures (sum + check) % 10 == 0 <==> check == (10 - sum % 10) % 10
  {
  }

  /** The code's parity rule and the rule from the right double the same digits. */
  lemma {:induction false} SumFromRight(whole: seq<int>, n: nat, doubled: bool)
    requires n <= |whole| && (forall i | 0 <= i < |whole| :: 0 <= whole[i] <= 9)
    requires n > 0 ==> (doubled <==> (n - 1) % 2 == |whole| % 2)
    ensures LuhnSum(whole, n) == FromRight(whole[..n], doubled)
    decreases n
  {
    if n > 0 {
      NextParity(n - 1, |whole|);
      assert whole[..n][..n - 1] == whole[..n - 1];
      if n > 1 { NextParity(n - 2, |whole|); }
      SumFromRight(whole, n - 1, !doubled);
      DoubleDigit(whole[n - 1]);
    }
  }

  lemma DoubleDigit(digit: int)
    requires 0 <= digit <= 9
    ensures LuhnWeight(digit, true) == 2 * digit / 10 + 2 * digit % 10
  {
  }

  /** The digits of a text are its characters 0 to 9 in order; anything else is passed over. */
  lemma {:induction false} DigitsOfParts(a: string, b: string)
    ensures Digits(a + b) == Digits(a) + Digits(b)
    decreases |a|
  {
    if a == [] {
      assert a + b == b;
    } else {
      assert (a + b)[1..] == a[1..] + b;
      DigitsOfParts(a[1..], b);
    }
  }

  lemma DigitsOfOne(c: char)
    ensures Digits([c]) == if '0' <= c <= '9' then [c as int - 48] else []
  {
    assert [c][1..] == [];
  }

  // ---- resident ids: MOD 11-2 of ISO 7064

  /** The running value of the pure system: add the digit, double, digit by digit from the left. */
  function Running(candidate: string, n: nat): int
    requires n <= |candidate|
  {
    if n == 0 then 0 else 2 * (Running(candidate, n - 1) + (candidate[n - 1] as int - 48))
  }

  /** The value of the check character; X stands for ten. */
  function CheckValue(c: char): int {
    if c == 'x' || c == 'X' then 10 else c as int - 48
  }

  /** A candidate is a resident id exactly when it is seventeen digits and a digit or X that brings the running value to
      one modulo eleven. */
  lemma IdByModEleven(candidate: string)
    ensures ResidentId(candidate) <==>
      && |candidate| == 18 && (forall i | 0 <= i < 17 :: '0' <= candidate[i] <= '9')
      && ('0' <= candidate[17] <= '9' || candidate[17] == 'x' || candidate[17] == 'X')
      && (Running(candidate, 17) + CheckValue(candidate[17])) % 11 == 1
  {
    if |candidate| == 18 && (IsDigit(candidate[17]) || Upper(candidate[17]) == 'X') {
      WeightedIsRunning(candidate, 17);
      hide Running, IdSum;
      SameModulo(IdSum(candidate, 17), Running(candidate, 17));
      CheckCharacter(IdSum(candidate, 17) % 11, candidate[17]);
      CheckSum(Running(candidate, 17), CheckValue(candidate[17]));
    }
  }

  lemma CheckCharacter(r: nat, c: char)
    requires r < 11 && (IsDigit(c) || Upper(c) == 'X')
    ensures ID_CHECKS[r] == Upper(c) <==> (r + CheckValue(c)) % 11 == 1
  {
  }

  lemma CheckSum(a: int, check: int)
    ensures (a + check) % 11 == (a % 11 + check) % 11
  {
  }

  lemma SameModulo(a: int, b: int)
    requires (a - b) % 11 == 0
    ensures a % 11 == b % 11
  {
  }

  /** Two to the power of the places still to come. */
  function Places(n: nat): int
    requires n <= 17
    decreases 17 - n
  {
    if n == 17 then 1 else 2 * Places(n + 1)
  }

  lemma WeightsAreAdjacent(n: nat)
    requires n < 16
    ensures (ID_WEIGHTS[n] - 2 * ID_WEIGHTS[n + 1]) % 11 == 0
  {
    assert n == 0 || n == 1 || n == 2 || n == 3 || n == 4 || n == 5 || n == 6 || n == 7 || n == 8 || n == 9 || n == 10 || n == 11 || n == 12
        || n == 13 || n == 14 || n == 15;
  }

  lemma {:induction false} WeightIsPlaces(n: nat)
    requires n < 17
    ensures (ID_WEIGHTS[n] - Places(n)) % 11 == 0
    decreases 17 - n
  {
    if n == 16 {
      assert Places(17) == 1;
    } else {
      WeightIsPlaces(n + 1);
      WeightsAreAdjacent(n);
      DoubleModulo(ID_WEIGHTS[n], ID_WEIGHTS[n + 1], Places(n + 1));
    }
  }

  lemma DoubleModulo(w: int, next: int, p: int)
    requires (w - 2 * next) % 11 == 0 && (next - p) % 11 == 0
    ensures (w - 2 * p) % 11 == 0
  {
  }

  lemma MultipleModulo(d: int, x: int)
    requires x % 11 == 0
    ensures (d * x) % 11 == 0
  {
    var k := x / 11;
    assert d * x == 11 * (d * k);
  }

  lemma {:induction false} WeightedIsRunningSoFar(candidate: string, n: nat)
    requires n <= 17 && n <= |candidate|
    ensures (IdSum(candidate, n) - Running(candidate, n) * Places(n)) % 11 == 0
    decreases n
  {
    if n > 0 {
      WeightedIsRunningSoFar(candidate, n - 1);
      var d, r, p := candidate[n - 1] as int - 48, Running(candidate, n - 1), Places(n);
      WeightIsPlaces(n - 1);
      MultipleModulo(d, ID_WEIGHTS[n - 1] - Places(n - 1));
      StepModulo(IdSum(candidate, n - 1), r, d, ID_WEIGHTS[n - 1], p);
    }
  }

  lemma StepModulo(s: int, r: int, d: int, w: int, p: int)
    requires (s - r * (2 * p)) % 11 == 0 && (d * (w - 2 * p)) % 11 == 0
    ensures (s + d * w - 2 * (r + d) * p) % 11 == 0
  {
    assert s + d * w - 2 * (r + d) * p == (s - r * (2 * p)) + d * (w - 2 * p);
    SumModulo(s - r * (2 * p), d * (w - 2 * p));
  }

  lemma SumModulo(a: int, b: int)
    requires a % 11 == 0 && b % 11 == 0
    ensures (a + b) % 11 == 0
  {
  }

  lemma WeightedIsRunning(candidate: string, n: nat)
    requires n == 17 <= |candidate|
    ensures (IdSum(candidate, n) - Running(candidate, n)) % 11 == 0
  {
    WeightedIsRunningSoFar(candidate, n);
    assert Places(17) == 1;
  }

  // ---- what is reported

  /** The finding covers part of the span. */
  predicate Touches(f: Finding, start: nat, end: nat) {
    f.start < end && start < f.end
  }

  lemma {:induction false} ProposedExactly(category: string, rule: string, matches: seq<Match>, f: Finding)
    ensures f in Proposed(category, rule, matches) <==>
      f.category == category && f.rule == rule && exists m <- matches :: !m.discarded && f.start == m.start && f.end == m.end
    decreases |matches|
  {
    if matches != [] {
      ProposedExactly(category, rule, matches[1..], f);
      assert matches == [matches[0]] + matches[1..];
    }
  }

  /** A digit run that is a card number, or an id, is always touched by a finding: it cannot pass the scan unnoticed. */
  lemma ValidNumbersAreFound(text: string, rules: seq<RuleMatches>, cards: seq<Match>, ids: seq<Match>, m: Match)
    requires RulesOnePass(rules, text) && OnePass(cards, text) && OnePass(ids, text)
    requires (m in cards && CardNumber(text[m.start..m.end])) || (m in ids && ResidentId(text[m.start..m.end]))
    ensures exists f <- Scanned(text, rules, cards, ids) :: Touches(f, m.start, m.end)
  {
    hide Scanned, RulesOnePass, CardNumber, ResidentId, ProposedByRules, Proposed, Digits;
    var found := Scanned(text, rules, cards, ids);
    ScanCovers(text, rules, cards, ids);
    var f: Finding;
    if m in cards && CardNumber(text[m.start..m.end]) {
      f := Finding("payment_card", "payment-card-luhn", m.start, m.end);
      var i :| 0 <= i < |cards| && cards[i] == m;
      assert Cards(text, cards)[i] == m.(discarded := false);
      ProposedExactly("payment_card", "payment-card-luhn", Cards(text, cards), f);
    } else {
      f := Finding("government_id", "cn-resident-id", m.start, m.end);
      var i :| 0 <= i < |ids| && ids[i] == m;
      assert Ids(text, ids)[i] == m.(discarded := false);
      ProposedExactly("government_id", "cn-resident-id", Ids(text, ids), f);
    }
    assert f in Proposals(text, rules, cards, ids);
    var i :| 0 <= i < |found| && Overlaps(f, found[i]);
    assert found[i] in found && Touches(found[i], m.start, m.end);
  }

  lemma {:induction false} RuleFindings(rules: seq<RuleMatches>, f: Finding)
    ensures f in ProposedByRules(rules) <==> exists rule <- rules ::
      f.category == rule.category && f.rule == rule.rule && exists m <- rule.matches :: !m.discarded && f.start == m.start && f.end == m.end
    decreases |rules|
  {
    if rules != [] {
      RuleFindings(rules[1..], f);
      ProposedExactly(rules[0].category, rules[0].rule, rules[0].matches, f);
      assert rules == [rules[0]] + rules[1..];
    }
  }

  /** Every finding has its reason: the match of a rule that the rule's filter lets pass, a card number, or an id. */
  lemma FindingsAreJustified(text: string, rules: seq<RuleMatches>, cards: seq<Match>, ids: seq<Match>, f: Finding)
    requires RulesOnePass(rules, text) && OnePass(cards, text) && OnePass(ids, text) && f in Scanned(text, rules, cards, ids)
    ensures f.start < f.end <= |text|
    ensures
      || (exists rule <- rules :: f.category == rule.category && f.rule == rule.rule
            && exists m <- rule.matches :: !m.discarded && f.start == m.start && f.end == m.end)
      || (f.category == "payment_card" && f.rule == "payment-card-luhn" && CardNumber(text[f.start..f.end])
            && exists m <- cards :: f.start == m.start && f.end == m.end)
      || (f.category == "government_id" && f.rule == "cn-resident-id" && ResidentId(text[f.start..f.end])
            && exists m <- ids :: f.start == m.start && f.end == m.end)
  {
    hide Scanned, RulesOnePass, CardNumber, ResidentId, ProposedByRules, Proposed, Digits;
    ScanCovers(text, rules, cards, ids);
    ProposalsAreWellFormed(text, rules, cards, ids);
    assert f in Proposals(text, rules, cards, ids);
    RuleFindings(rules, f);
    ProposedExactly("payment_card", "payment-card-luhn", Cards(text, cards), f);
    ProposedExactly("government_id", "cn-resident-id", Ids(text, ids), f);
    if f in Proposed("payment_card", "payment-card-luhn", Cards(text, cards)) {
      var m :| m in Cards(text, cards) && !m.discarded && f.start == m.start && f.end == m.end;
      var i :| 0 <= i < |cards| && Cards(text, cards)[i] == m;
      assert cards[i] in cards;
    } else if f in Proposed("government_id", "cn-resident-id", Ids(text, ids)) {
      var m :| m in Ids(text, ids) && !m.discarded && f.start == m.start && f.end == m.end;
      var i :| 0 <= i < |ids| && Ids(text, ids)[i] == m;
      assert ids[i] in ids;
    }
  }

  /** First come, first served: a proposal that is not kept overlaps a kept one that was proposed before it. */
  lemma {:induction false} EarlierWins(found: seq<Finding>, proposals: seq<Finding>, i: nat)
    requires i < |proposals|
    ensures var kept := Kept(found, proposals);
      || proposals[i] in kept
      || (exists f <- found :: f in kept && Touches(f, proposals[i].start, proposals[i].end))
      || (exists j: nat | j < i :: proposals[j] in kept && Touches(proposals[j], proposals[i].start, proposals[i].end))
    decreases |proposals|
  {
    var p := proposals[0];
    var next := if Taken(p, found) then found else found + [p];
    KeptKeeps(next, proposals[1..]);
    if i == 0 {
      if Taken(p, found) {
        var k :| 0 <= k < |found| && Overlaps(p, found[k]);
        assert found[k] in next;
      } else {
        assert next[|found|] == p;
      }
    } else {
      EarlierWins(next, proposals[1..], i - 1);
      var kept := Kept(next, proposals[1..]);
      if proposals[i] in kept {
      } else if f :| f in next && f in kept && Touches(f, proposals[i].start, proposals[i].end) {
        if f !in found { assert f == p && proposals[0] in kept; }
      } else {
        var j: nat :| j < i - 1 && proposals[1..][j] in kept && Touches(proposals[1..][j], proposals[i].start, proposals[i].end);
        assert proposals[j + 1] == proposals[1..][j];
      }
    }
  }

  lemma {:induction false} KeptKeeps(found: seq<Finding>, proposals: seq<Finding>)
    ensures forall f <- found :: f in Kept(found, proposals)
    decreases |proposals|
  {
    if proposals != [] {
      KeptKeeps(if Taken(proposals[0], found) then found else found + [proposals[0]], proposals[1..]);
    }
  }

  /** A card number is reported as such unless the match of a rule got there first: ids and other digit runs never
      take its place. */
  lemma CardsGiveWayToRules(text: string, rules: seq<RuleMatches>, cards: seq<Match>, ids: seq<Match>, m: Match)
    requires RulesOnePass(rules, text) && OnePass(cards, text) && OnePass(ids, text)
    requires m in cards && CardNumber(text[m.start..m.end])
    ensures var card := Finding("payment_card", "payment-card-luhn", m.start, m.end);
      || card in Scanned(text, rules, cards, ids)
      || exists f <- Scanned(text, rules, cards, ids) :: f in ProposedByRules(rules) && Touches(f, m.start, m.end)
  {
    hide CardNumber, ResidentId, Proposed, ProposedByRules, Digits, RulesOnePass, Kept, InOrder;
    var card := Finding("payment_card", "payment-card-luhn", m.start, m.end);
    var first, second := ProposedByRules(rules), Proposed("payment_card", "payment-card-luhn", Cards(text, cards));
    var all := Proposals(text, rules, cards, ids);
    var c :| 0 <= c < |cards| && cards[c] == m;
    assert Cards(text, cards)[c] == m.(discarded := false);
    ProposedExactly("payment_card", "payment-card-luhn", Cards(text, cards), card);
    var i :| 0 <= i < |second| && second[i] == card;
    assert all == (first + second) + Proposed("government_id", "cn-resident-id", Ids(text, ids));
    assert all[|first| + i] == card;
    EarlierWins([], all, |first| + i);
    SameMembers(all, text, rules, cards, ids);
    if card !in Kept([], all) {
      var j: nat :| j < |first| + i && all[j] in Kept([], all) && Touches(all[j], m.start, m.end);
      if j < |first| {
        assert all[j] == first[j];
      } else {
        assert all[j] == second[j - |first|] && second[j - |first|] in second;
        CardsApart(text, cards, second, j - |first|, i);
        assert false;
      }
    }
  }

  lemma SameMembers(all: seq<Finding>, text: string, rules: seq<RuleMatches>, cards: seq<Match>, ids: seq<Match>)
    requires OnePass(cards, text) && OnePass(ids, text) && RulesOnePass(rules, text) && all == Proposals(text, rules, cards, ids)
    ensures forall f :: f in Scanned(text, rules, cards, ids) <==> f in Kept([], all)
  {
    hide Proposals, Kept, RulesOnePass, OnePass;
    InOrderMembers(Kept([], all));
  }

  lemma InOrderMembers(findings: seq<Finding>)
    ensures forall f :: f in InOrder(findings) <==> f in findings
  {
    InOrderCounts(findings);
    hide InOrder;
    forall f ensures f in InOrder(findings) <==> f in findings {
      assert f in multiset(InOrder(findings)) <==> f in multiset(findings);
    }
  }

  lemma {:induction false} InOrderCounts(findings: seq<Finding>)
    ensures multiset(InOrder(findings)) == multiset(findings)
    decreases |findings|
  {
    if findings != [] {
      var n := |findings| - 1;
      InOrderCounts(findings[..n]);
      InsertAdds(findings[n], InOrder(findings[..n]));
      assert findings == findings[..n] + [findings[n]];
    }
  }

  /** Two card numbers of one pass do not touch each other, nor does one twice. */
  lemma CardsApart(text: string, cards: seq<Match>, found: seq<Finding>, j: nat, i: nat)
    requires OnePass(cards, text) && found == Proposed("payment_card", "payment-card-luhn", Cards(text, cards)) && j < i < |found|
    ensures !Touches(found[j], found[i].start, found[i].end)
  {
    InTextOrder("payment_card", "payment-card-luhn", Cards(text, cards), j, i);
  }

  lemma {:induction false} InTextOrder(category: string, rule: string, matches: seq<Match>, j: nat, i: nat)
    requires forall a, b | 0 <= a < b < |matches| :: matches[a].end <= matches[b].start
    requires j < i < |Proposed(category, rule, matches)|
    ensures Proposed(category, rule, matches)[j].end <= Proposed(category, rule, matches)[i].start
    decreases |matches|
  {
    var rest := Proposed(category, rule, matches[1..]);
    if matches[0].discarded {
      assert Proposed(category, rule, matches) == rest;
      InTextOrder(category, rule, matches[1..], j, i);
    } else {
      assert Proposed(category, rule, matches)[i] == rest[i - 1];
      if j == 0 {
        assert rest[i - 1] in rest;
        ProposedFrom(category, rule, matches[1..], matches[0].end);
      } else {
        assert Proposed(category, rule, matches)[j] == rest[j - 1];
        InTextOrder(category, rule, matches[1..], j - 1, i - 1);
      }
    }
  }

  // ---- what is written instead

  lemma LadderCut(text: string, findings: seq<Finding>, f: Finding)
    requires Ladder(findings + [f], text)
    ensures f.start < f.end <= |text| && Ladder(findings, text[..f.start])
    ensures findings != [] ==> findings[0].end <= f.start && Ladder(findings[1..] + [f], text)
  {
    var all := findings + [f];
    assert all[|findings|] == f && forall i | 0 <= i < |findings| :: all[i] == findings[i];
    assert forall i | 0 <= i < |findings| :: WellFormed(all[i], text) && all[i].end <= all[|findings|].start;
    if findings != [] {
      assert findings[1..] + [f] == all[1..];
    }
  }

  /** Taking in one more finding, after all the others, puts its category in the place of its span and keeps the text
      behind it; by repeating this, every redaction is the text with each span so replaced and nothing else changed. */
  lemma {:induction false} LastSpanIsReplaced(text: string, findings: seq<Finding>, f: Finding, from: nat)
    requires Ladder(findings + [f], text) && f.start < f.end <= |text| && Ladder(findings, text[..f.start])
    requires from <= f.start && (findings != [] ==> from <= findings[0].start)
    ensures Redacted(text, findings + [f], from) == Redacted(text[..f.start], findings, from) + ("[REDACTED:" + f.category + "]" + text[f.end..])
    decreases |findings|
  {
    hide Ladder;
    var all, cut, tail := findings + [f], text[..f.start], "[REDACTED:" + f.category + "]" + text[f.end..];
    if findings == [] {
      assert all == [f] && cut[from..] == text[from..f.start];
      RedactedLast(text, f, from);
    } else {
      var g := findings[0];
      assert all[1..] == findings[1..] + [f] && all[0] == g;
      LadderCut(text, findings, f);
      LadderTail(findings, cut);
      assert cut[from..g.start] == text[from..g.start];
      LastSpanIsReplaced(text, findings[1..], f, g.end);
      JoinedHead(text[from..g.start] + Label(g), Redacted(cut, findings[1..], g.end), tail);
    }
  }

  lemma LadderTail(findings: seq<Finding>, text: string)
    requires Ladder(findings, text) && findings != []
    ensures Ladder(findings[1..], text) && (|findings| > 1 ==> findings[0].end <= findings[1].start) && findings[0].start < findings[0].end <= |text|
  {
  }

  lemma RedactedLast(text: string, f: Finding, from: nat)
    requires Ladder([f], text) && from <= f.start < f.end <= |text|
    ensures Redacted(text, [f], from) == text[from..f.start] + ("[REDACTED:" + f.category + "]" + text[f.end..])
  {
    assert [f][1..] == [];
    assert Redacted(text, [], f.end) == text[f.end..];
    JoinedHead(text[from..f.start], Label(f), text[f.end..]);
  }

  lemma JoinedHead(a: string, b: string, c: string)
    ensures a + (b + c) == a + b + c
  {
  }
}
