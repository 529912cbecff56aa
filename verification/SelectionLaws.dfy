/** What the hybrid selection returns, on the scores, ids, texts, groups and token counts of the candidates
    (src/agent_memory_gateway/hybrid_retrieval.py), apart from the comparisons the code makes. */
module SelectionLaws {
  import opened Names
  import opened TextOrder
  import opened RerankHeap
  import opened Retrieval

  // ---- ranking and near duplicates

  /** The ranking truncated to k is the best k of the candidates, ids distinct or not. */
  lemma TopKIsBest(all: seq<Candidate>, k: nat)
    ensures BestOf(all, k, TopK(all, k))
  {
    hide KeptBest, Ranked, BestOf;
    var ranking := SortRanked(all);
    SortIsRanked(all);
    SameLength(ranking, all);
    var n := if |all| < k then |all| else k;
    assert ranking == ranking[..n] + ranking[n..];
    CutIsKept(ranking, n);
    assert TopK(all, k) == ranking[..n];
    BestFromKept(all, k, ranking[..n], ranking[n..]);
  }

  lemma CutIsKept(ranking: seq<Candidate>, n: nat)
    requires Ranked(ranking) && n <= |ranking|
    ensures Ranked(ranking[..n]) && KeptBest(ranking[..n], ranking[n..])
  {
    hide Better;
  }

  /** Best first: by falling score, equal scores by rising id. */
  predicate BestFirst(scored: seq<Candidate>) {
    forall i, j | 0 <= i < j < |scored| :: RanksNoLower(scored[i], scored[j])
  }

  /** The texts are equal or their similarity is at least 0.94. */
  predicate NearlyEqual(c: Candidate, e: Candidate, sim: Similarity) {
    c.content == e.content || sim(c.content, e.content) >= 0.94
  }

  /** Of two near duplicates the better one survives: what is dropped nearly equals a member that ranks no lower. */
  lemma {:induction false} BetterDuplicateSurvives(scored: seq<Candidate>, sim: Similarity)
    requires BestFirst(scored)
    ensures BestFirst(Deduped(scored, sim))
    ensures forall e <- Deduped(scored, sim) :: e in scored
    ensures forall c <- scored | c !in Deduped(scored, sim) ::
      exists e <- Deduped(scored, sim) :: NearlyEqual(c, e, sim) && RanksNoLower(e, c)
    decreases |scored|
  {
    hide RanksNoLower;
    if scored != [] {
      var n := |scored| - 1;
      var c, unique := scored[n], Deduped(scored[..n], sim);
      BetterDuplicateSurvives(scored[..n], sim);
      forall e <- unique ensures RanksNoLower(e, c) {
        var i :| 0 <= i < n && scored[..n][i] == e;
        assert scored[i] == e;
      }
      forall d <- scored | d !in Deduped(scored, sim)
        ensures exists e <- Deduped(scored, sim) :: NearlyEqual(d, e, sim) && RanksNoLower(e, d)
      {
        if d in scored[..n] {
          var e :| e in unique && NearlyEqual(d, e, sim) && RanksNoLower(e, d);
          assert e in Deduped(scored, sim);
        } else {
          assert d == c;
          var i :| 0 <= i < |unique| && DuplicateOf(c, unique[i], sim);
          assert unique[i] in unique && NearlyEqual(c, unique[i], sim);
        }
      }
    }
  }

  // ---- marginal relevance

  /** m is the greatest similarity of the text to a chosen one, and 0 when nothing is chosen yet. */
  ghost predicate GreatestSimilarity(c: Candidate, selected: seq<Candidate>, sim: Similarity, m: real) {
    && (selected == [] ==> m == 0.0)
    && (forall i | 0 <= i < |selected| :: sim(c.content, selected[i].content) <= m)
    && (selected != [] ==> exists i :: 0 <= i < |selected| && sim(c.content, selected[i].content) == m)
  }

  /** Four fifths of the score, less a fifth of the greatest similarity, and 0.04 more for the first of a new group. */
  ghost predicate MarginalValue(c: Candidate, selected: seq<Candidate>, sim: Similarity, value: real) {
    exists m: real :: GreatestSimilarity(c, selected, sim, m)
      && value == 0.8 * c.score - 0.2 * m + (if selected == [] || SharesGroup(c, selected) then 0.0 else 0.04)
  }

  predicate SharesGroup(c: Candidate, selected: seq<Candidate>) {
    exists e <- selected :: e.group == c.group
  }

  lemma {:induction false} MaxIsGreatest(c: Candidate, selected: seq<Candidate>, sim: Similarity)
    ensures GreatestSimilarity(c, selected, sim, MaxSimilarity(c, selected, sim))
    decreases |selected|
  {
    if selected != [] {
      var n := |selected| - 1;
      MaxIsGreatest(c, selected[..n], sim);
      var m := MaxSimilarity(c, selected, sim);
      if m == sim(c.content, selected[n].content) {
      } else {
        var i :| 0 <= i < n && sim(c.content, selected[..n][i].content) == m;
        assert selected[i] == selected[..n][i];
      }
      forall i | 0 <= i < |selected| ensures sim(c.content, selected[i].content) <= m {
        if i < n { assert selected[i] == selected[..n][i]; }
      }
    }
  }

  lemma GreatestIsUnique(c: Candidate, selected: seq<Candidate>, sim: Similarity, m: real, n: real)
    requires GreatestSimilarity(c, selected, sim, m) && GreatestSimilarity(c, selected, sim, n)
    ensures m == n
  {
  }

  /** The score the selection compares is the marginal value, and nothing else is one. */
  lemma ScoreIsMarginalValue(c: Candidate, selected: seq<Candidate>, sim: Similarity, value: real)
    ensures MarginalValue(c, selected, sim, value) <==> value == MmrScore(c, selected, sim)
  {
    hide MaxSimilarity, GreatestSimilarity;
    var greatest := MaxSimilarity(c, selected, sim);
    MaxIsGreatest(c, selected, sim);
    assert SharesGroup(c, selected) <==> exists i | 0 <= i < |selected| :: selected[i].group == c.group;
    if MarginalValue(c, selected, sim, value) {
      var m: real :| GreatestSimilarity(c, selected, sim, m)
        && value == 0.8 * c.score - 0.2 * m + (if selected == [] || SharesGroup(c, selected) then 0.0 else 0.04);
      GreatestIsUnique(c, selected, sim, m, greatest);
    }
  }

  /** c is worth at least as much as d to a reader of the chosen ones; equal values are decided by the id. */
  ghost predicate WorthNoLess(c: Candidate, d: Candidate, selected: seq<Candidate>, sim: Similarity) {
    forall x: real, y: real | MarginalValue(c, selected, sim, x) && MarginalValue(d, selected, sim, y) ::
      x > y || (x == y && !Before(d.id, c.id))
  }

  lemma PreferredIsWorth(c: Candidate, d: Candidate, selected: seq<Candidate>, sim: Similarity)
    requires !Preferred(d, c, selected, sim)
    ensures WorthNoLess(c, d, selected, sim)
  {
    hide MmrScore, MarginalValue;
    forall x: real, y: real | MarginalValue(c, selected, sim, x) && MarginalValue(d, selected, sim, y)
      ensures x > y || (x == y && !Before(d.id, c.id))
    {
      ScoreIsMarginalValue(c, selected, sim, x);
      ScoreIsMarginalValue(d, selected, sim, y);
    }
  }

  // ---- the greedy choice, read from its result

  /** What the candidates chosen before leave of the budget is enough for this one. */
  predicate Affordable(d: Candidate, chosen: seq<Candidate>, budget: Option<nat>) {
    budget.Some? ==> Tokens(chosen) + d.tokens <= budget.value
  }

  /** The memory at this position fits the budget, and no candidate that was still available and fitted was worth more. */
  ghost predicate BestChoiceAt(unique: seq<Candidate>, selected: seq<Candidate>, budget: Option<nat>, sim: Similarity, i: nat)
    requires i < |selected|
  {
    && selected[i] in unique && Affordable(selected[i], selected[..i], budget)
    && forall d <- unique | d !in selected[..i] && Affordable(d, selected[..i], budget) :: WorthNoLess(selected[i], d, selected[..i], sim)
  }

  lemma TurnIsBestChoice(p: Pool, unique: seq<Candidate>, budget: Option<nat>, sim: Similarity)
    requires p.remaining != [] && Accounted(p, unique, budget) && |Turn(p, sim).selected| > |p.selected|
    ensures Turn(p, sim).selected[..|p.selected|] == p.selected
    ensures BestChoiceAt(unique, Turn(p, sim).selected, budget, sim, |p.selected|)
  {
    hide Pick, WorthNoLess, Preferred, Tokens;
    var c := p.remaining[Pick(p.remaining, p.selected, sim)];
    assert Turn(p, sim).selected == p.selected + [c];
    PickIsMostPreferred(p.remaining, p.selected, sim);
    assert c in multiset(p.remaining);
    assert c in multiset(unique);
    forall d <- unique | d !in p.selected && Affordable(d, p.selected, budget) ensures WorthNoLess(c, d, p.selected, sim) {
      StillThere(p, unique, budget, d);
      var j :| 0 <= j < |p.remaining| && p.remaining[j] == d;
      PreferredIsWorth(c, d, p.selected, sim);
    }
  }

  lemma StillThere(p: Pool, unique: seq<Candidate>, budget: Option<nat>, d: Candidate)
    requires Accounted(p, unique, budget) && d in unique && d !in p.selected && Affordable(d, p.selected, budget)
    ensures d in p.remaining
  {
    hide Tokens;
    assert d in multiset(unique);
    assert d in multiset(p.selected) + multiset(p.remaining) + multiset(p.skipped);
  }

  lemma {:induction false} ChoicesAreBest(p: Pool, unique: seq<Candidate>, budget: Option<nat>, limit: nat, sim: Similarity, i: nat)
    requires Accounted(p, unique, budget) && |p.selected| <= limit && |p.selected| <= i < |Choose(p, limit, sim).selected|
    ensures BestChoiceAt(unique, Choose(p, limit, sim).selected, budget, sim, i)
    decreases |p.remaining|
  {
    hide Accounted, Turn, BestChoiceAt;
    if p.remaining != [] && |p.selected| < limit {
      var next, r := Turn(p, sim), Choose(p, limit, sim);
      TurnKeepsAccount(p, unique, budget, sim);
      ChooseKeepsAccount(next, unique, budget, limit, sim);
      if |next.selected| > i {
        TurnIsBestChoice(p, unique, budget, sim);
        SamePrefix(unique, next.selected, r.selected, budget, sim, i);
      } else {
        ChoicesAreBest(next, unique, budget, limit, sim, i);
      }
    }
  }

  lemma SamePrefix(unique: seq<Candidate>, a: seq<Candidate>, b: seq<Candidate>, budget: Option<nat>, sim: Similarity, i: nat)
    requires i < |a| && a <= b && BestChoiceAt(unique, a, budget, sim, i)
    ensures BestChoiceAt(unique, b, budget, sim, i)
  {
    assert b[..i] == a[..i] && b[i] == a[i];
  }

  /** Every chosen memory, at its turn, fitted what was left of the budget and was worth at least as much as every other
      candidate that was still available and fitted, given those chosen before it. */
  lemma EveryChoiceIsBest(unique: seq<Candidate>, budget: Option<nat>, limit: nat, sim: Similarity)
    ensures var r := Choose(Opening(unique, budget), limit, sim).selected;
      forall i | 0 <= i < |r| :: BestChoiceAt(unique, r, budget, sim, i)
  {
    hide Choose, BestChoiceAt;
    OpeningAccounted(unique, budget);
    var r := Choose(Opening(unique, budget), limit, sim).selected;
    forall i | 0 <= i < |r| ensures BestChoiceAt(unique, r, budget, sim, i) {
      ChoicesAreBest(Opening(unique, budget), unique, budget, limit, sim, i);
    }
  }

  // ---- the whole selection

  /** The record may be considered: it is no instruction and has a text. */
  predicate Admissible(r: Record) {
    !r.instruction && !r.blank
  }

  lemma {:induction false} EligibleExactly(records: seq<Record>, c: Candidate)
    ensures c in Eligible(records) <==> exists r <- records :: Admissible(r) && r.candidate == c
    decreases |records|
  {
    if records != [] {
      var n := |records| - 1;
      EligibleExactly(records[..n], c);
      assert records == records[..n] + [records[n]];
    }
  }

  /** The requested number of memories, held between 1 and 50, and the budget, never negative. */
  function Wanted(limit: int): nat {
    if limit <= 1 then 1 else if limit >= 50 then 50 else limit
  }

  /** The whole selection: only admissible records are returned, no two of them nearly equal, at most as many as wanted
      and within the budget, and fewer than wanted only when no other surviving candidate fits any more. */
  lemma SelectionReturns(records: seq<Record>, limit: int, maxTokens: Option<int>, sim: Similarity)
    requires Symmetric(sim, Texts(TopK(Eligible(records), 600)))
    ensures var p := Selection(records, limit, maxTokens, sim); var r := p.selected;
      && |r| <= Wanted(limit) && (maxTokens.Some? ==> Tokens(r) <= if maxTokens.value > 0 then maxTokens.value else 0)
      && (forall c <- r :: exists rec <- records :: Admissible(rec) && rec.candidate == c)
      && (forall i, j | 0 <= i < |r| && 0 <= j < |r| && i != j :: !NearlyEqual(r[i], r[j], sim))
      && (|r| < Wanted(limit) ==>
            forall c <- Deduped(TopK(Eligible(records), 600), sim) | c !in r ::
              maxTokens.Some? && Tokens(r) + c.tokens > if maxTokens.value > 0 then maxTokens.value else 0)
  {
    hide Selection, Tokens, Deduped, TopK, Symmetric, Eligible;
    var scored, r := TopK(Eligible(records), 600), Selection(records, limit, maxTokens, sim).selected;
    SelectionPromises(records, limit, maxTokens, sim);
    DedupedCovers(scored, sim);
    TopKIsBest(Eligible(records), 600);
    forall c <- r ensures exists rec <- records :: Admissible(rec) && rec.candidate == c {
      assert c in multiset(scored);
      assert c in multiset(Eligible(records));
      EligibleExactly(records, c);
    }
  }

  /** Without a budget the most relevant admissible record always comes first. */
  lemma MostRelevantComesFirst(records: seq<Record>, limit: int, sim: Similarity)
    requires exists r <- records :: Admissible(r)
    ensures var s := Selection(records, limit, None, sim).selected;
      s != [] && forall r <- records | Admissible(r) :: RanksNoLower(s[0], r.candidate)
  {
    hide Deduped, TopK, Eligible, Choose, BestOf, BestChoiceAt;
    var all := Eligible(records);
    var scored := TopK(all, 600);
    var unique := Deduped(scored, sim);
    var rec :| rec in records && Admissible(rec);
    EligibleExactly(records, rec.candidate);
    TopKIsBest(all, 600);
    FirstSurvives(scored, sim);
    var s := Selection(records, limit, None, sim).selected;
    ChosenFirst(unique, Bounded(limit), sim);
    forall r <- records | Admissible(r) ensures RanksNoLower(s[0], r.candidate) {
      EligibleExactly(records, r.candidate);
      BestIsFirst(all, scored, r.candidate);
      RankingChains(s[0], scored[0], r.candidate);
    }
  }

  lemma {:induction false} FirstSurvives(scored: seq<Candidate>, sim: Similarity)
    requires scored != []
    ensures Deduped(scored, sim) != [] && Deduped(scored, sim)[0] == scored[0]
    decreases |scored|
  {
    var n := |scored| - 1;
    if n == 0 {
      assert scored[..n] == [];
    } else {
      FirstSurvives(scored[..n], sim);
    }
  }

  lemma BestIsFirst(all: seq<Candidate>, scored: seq<Candidate>, c: Candidate)
    requires BestOf(all, 600, scored) && c in all && scored != []
    ensures RanksNoLower(scored[0], c)
  {
    BeforeIsTotal(c.id, c.id);
    if c in scored {
      var i :| 0 <= i < |scored| && scored[i] == c;
    } else {
      assert c in multiset(all) && c !in multiset(scored);
    }
  }

  lemma RankingChains(a: Candidate, b: Candidate, c: Candidate)
    requires RanksNoLower(a, b) && RanksNoLower(b, c)
    ensures RanksNoLower(a, c)
  {
    NotBetterRanks(b, a);
    NotBetterRanks(c, b);
    NotBetterRanks(c, a);
    BetterIsOrder(c, b, a);
  }

  lemma ChosenFirst(unique: seq<Candidate>, limit: nat, sim: Similarity)
    requires unique != [] && limit > 0
    ensures var s := Choose(Opening(unique, None), limit, sim).selected; s != [] && RanksNoLower(s[0], unique[0])
  {
    hide Choose, Turn;
    var s := Choose(Opening(unique, None), limit, sim).selected;
    OpeningAccounted(unique, None);
    ChooseKeepsAccount(Opening(unique, None), unique, None, limit, sim);
    EveryChoiceIsBest(unique, None, limit, sim);
    assert BestChoiceAt(unique, s, None, sim, 0);
    assert s[..0] == [];
    assert Affordable(unique[0], s[..0], None) && WorthNoLess(s[0], unique[0], [], sim);
    AloneIsItsScore(s[0], sim);
    AloneIsItsScore(unique[0], sim);
  }

  lemma AloneIsItsScore(c: Candidate, sim: Similarity)
    ensures MarginalValue(c, [], sim, 0.8 * c.score)
  {
    assert GreatestSimilarity(c, [], sim, 0.0);
  }

  // ---- the token estimate, piece by piece

  predicate IsAsciiWord(c: char) {
    '0' <= c <= '9' || 'a' <= c <= 'z' || 'A' <= c <= 'Z'
  }

  /** A word costs a third of its letters and digits, rounded up. */
  lemma WordCosts(word: string)
    requires word != [] && forall i | 0 <= i < |word| :: IsAsciiWord(word[i])
    ensures 3 * Estimate(word) >= |word| > 3 * (Estimate(word) - 1)
  {
    RunIs(word, |word|);
    assert word[|word|..] == [];
  }

  /** Any other character costs one, a blank nothing. */
  lemma MarkCosts(c: char)
    requires !IsAsciiWord(c)
    ensures Estimate([c]) == if c == ' ' then 0 else 1
  {
    assert [c][1..] == [];
  }

  /** Where a cut does not go through a word, the parts cost what the whole costs; with the costs of one word and one mark
      this settles the estimate of every text. */
  lemma {:induction false} PartsAddUp(a: string, b: string)
    requires a != [] && b != [] && !(IsAsciiWord(a[|a| - 1]) && IsAsciiWord(b[0]))
    ensures Estimate(a + b) == Estimate(a) + Estimate(b)
    decreases |a|
  {
    if IsWordChar(a[0]) {
      var r := RunLength(a);
      RunIs(a + b, r);
      assert (a + b)[r..] == a[r..] + b;
      if r < |a| { PartsAddUp(a[r..], b); } else { assert a[r..] + b == b && a[r..] == []; }
    } else {
      assert (a + b)[1..] == a[1..] + b;
      if |a| > 1 { PartsAddUp(a[1..], b); } else { assert a[1..] + b == b && a[1..] == []; }
    }
  }
}
