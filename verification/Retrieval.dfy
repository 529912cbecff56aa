/** Hybrid selection: keep the best candidates of a stream, drop near duplicates, then choose greedily by marginal
    relevance under a token budget (src/agent_memory_gateway/hybrid_retrieval.py). Scores are reals and the cosine
    of two texts is an arbitrary symmetric function. */
module Retrieval {
  import opened Names
  import opened TextOrder
  import opened RerankHeap

  type Similarity = (string, string) -> real

  const DUPLICATE_AT := 0.94
  const MAX_RESULTS := 50
  const MAX_RERANK_CANDIDATES := 600

  predicate Symmetric(sim: Similarity, texts: set<string>) {
    forall a <- texts, b <- texts :: sim(a, b) == sim(b, a)
  }

  // ---- ranking

  predicate Ranked(s: seq<Candidate>) {
    forall i, j | 0 <= i < j < |s| :: !Better(s[j], s[i])
  }

  predicate DistinctIds(s: seq<Candidate>) {
    forall i, j | 0 <= i < j < |s| :: s[i].id != s[j].id
  }

  function InsertRanked(c: Candidate, s: seq<Candidate>): (t: seq<Candidate>)
    ensures multiset(t) == multiset(s) + multiset{c}
  {
    if s == [] || Better(c, s[0]) then [c] + s
    else
      assert s == [s[0]] + s[1..];
      [s[0]] + InsertRanked(c, s[1..])
  }

  /** scored.sort(key = (-score, id)). */
  function SortRanked(s: seq<Candidate>): (t: seq<Candidate>)
    ensures multiset(t) == multiset(s)
  {
    if s == [] then []
    else
      assert s == s[..|s| - 1] + [s[|s| - 1]];
      InsertRanked(s[|s| - 1], SortRanked(s[..|s| - 1]))
  }

  lemma {:induction false} InsertKeepsRanked(c: Candidate, s: seq<Candidate>)
    requires Ranked(s)
    ensures Ranked(InsertRanked(c, s))
    decreases |s|
  {
    hide Better;
    if s == [] {
    } else if Better(c, s[0]) {
      forall j | 0 <= j < |s| ensures !Better(s[j], c) {
        BetterIsOrder(s[j], c, s[0]);
        BetterIsOrder(c, s[0], c);
      }
    } else {
      InsertKeepsRanked(c, s[1..]);
      var rest := InsertRanked(c, s[1..]);
      forall j | 0 <= j < |rest| ensures !Better(rest[j], s[0]) {
        assert rest[j] in multiset(rest);
        assert rest[j] == c || rest[j] in s[1..];
      }
    }
  }

  lemma {:induction false} SortIsRanked(s: seq<Candidate>)
    ensures Ranked(SortRanked(s))
    decreases |s|
  {
    if s != [] {
      SortIsRanked(s[..|s| - 1]);
      InsertKeepsRanked(s[|s| - 1], SortRanked(s[..|s| - 1]));
    }
  }

  /** Members of a sequence with distinct ids are told apart by their ids, in any arrangement of it. */
  lemma DistinctMembers(s: seq<Candidate>, x: Candidate, y: Candidate)
    requires DistinctIds(s) && x in s && y in s && x.id == y.id
    ensures x == y
  {
    var i :| 0 <= i < |s| && s[i] == x;
    var j :| 0 <= j < |s| && s[j] == y;
  }

  /** Two ranked arrangements of the same distinct candidates are the same sequence. */
  lemma {:induction false} RankingIsUnique(a: seq<Candidate>, b: seq<Candidate>)
    requires Ranked(a) && Ranked(b) && multiset(a) == multiset(b) && DistinctIds(a)
    ensures a == b
    decreases |a|
  {
    SameLength(a, b);
    if a != [] {
      FirstIsBest(a, b);
      WithoutFirst(a);
      WithoutFirst(b);
      RankedTail(a);
      RankedTail(b);
      hide Ranked, DistinctIds;
      RankingIsUnique(a[1..], b[1..]);
    }
  }

  lemma WithoutFirst(a: seq<Candidate>)
    requires a != []
    ensures a == [a[0]] + a[1..] && multiset(a[1..]) == multiset(a) - multiset{a[0]}
  {
    assert a == [a[0]] + a[1..];
  }

  lemma RankedTail(a: seq<Candidate>)
    requires a != []
    ensures Ranked(a) ==> Ranked(a[1..])
    ensures DistinctIds(a) ==> DistinctIds(a[1..])
  {
    hide Better;
  }

  lemma SameLength(a: seq<Candidate>, b: seq<Candidate>)
    requires multiset(a) == multiset(b)
    ensures |a| == |b|
  {
    assert |multiset(a)| == |a| && |multiset(b)| == |b|;
  }

  lemma FirstIsBest(a: seq<Candidate>, b: seq<Candidate>)
    requires Ranked(a) && Ranked(b) && multiset(a) == multiset(b) && DistinctIds(a) && a != [] && b != []
    ensures a[0] == b[0]
  {
    hide Better;
    assert a[0] in multiset(b) && b[0] in multiset(a);
    var i :| 0 <= i < |b| && b[i] == a[0];
    var j :| 0 <= j < |a| && a[j] == b[0];
    BetterIsOrder(a[0], b[0], a[0]);
    if a[0].id == b[0].id { DistinctMembers(a, a[0], b[0]); }
  }

  // ---- the bounded stream

  /** The k best candidates, best first. */
  function TopK(s: seq<Candidate>, k: nat): (t: seq<Candidate>)
    ensures |t| == if |s| < k then |s| else k
  {
    SameLength(SortRanked(s), s);
    if |s| < k then SortRanked(s) else SortRanked(s)[..k]
  }

  /** What a bounded heap has kept and what it has let go: nothing let go is better than anything kept. */
  ghost predicate KeptBest(kept: seq<Candidate>, dropped: seq<Candidate>) {
    forall i, j | 0 <= i < |dropped| && 0 <= j < |kept| :: !Better(dropped[i], kept[j])
  }

  /** Keeping the best of a stream is the same as sorting everything and truncating. */
  lemma KeptBestIsTopK(all: seq<Candidate>, kept: seq<Candidate>, dropped: seq<Candidate>, k: nat)
    requires DistinctIds(all) && multiset(all) == multiset(kept) + multiset(dropped)
    requires KeptBest(kept, dropped) && |kept| <= k && (dropped != [] ==> |kept| == k)
    ensures SortRanked(kept) == TopK(all, k)
  {
    var whole := SortRanked(kept) + SortRanked(dropped);
    SortIsRanked(kept);
    SortIsRanked(dropped);
    SortIsRanked(all);
    JoinIsRanked(SortRanked(kept), SortRanked(dropped), kept, dropped);
    SameLength(SortRanked(kept), kept);
    SameLength(SortRanked(all), all);
    assert multiset(whole) == multiset(all);
    SameLength(whole, all);
    DistinctEverywhere(all, SortRanked(all));
    RankingIsUnique(SortRanked(all), whole);
    SameLength(SortRanked(dropped), dropped);
  }

  lemma JoinIsRanked(a: seq<Candidate>, b: seq<Candidate>, kept: seq<Candidate>, dropped: seq<Candidate>)
    requires Ranked(a) && Ranked(b) && multiset(a) == multiset(kept) && multiset(b) == multiset(dropped) && KeptBest(kept, dropped)
    ensures Ranked(a + b)
  {
    hide Better;
    forall i, j | 0 <= i < |a| && 0 <= j < |b| ensures !Better(b[j], a[i]) {
      assert a[i] in multiset(kept) && b[j] in multiset(dropped);
    }
  }

  lemma {:induction false} IdsOccurOnce(s: seq<Candidate>, c: Candidate)
    requires DistinctIds(s)
    ensures multiset(s)[c] <= 1
    decreases |s|
  {
    if s != [] {
      var n := |s| - 1;
      assert s == s[..n] + [s[n]];
      IdsOccurOnce(s[..n], c);
      if s[n] == c && c in s[..n] { DistinctMembersAt(s, n); }
    }
  }

  lemma DistinctMembersAt(s: seq<Candidate>, n: nat)
    requires DistinctIds(s) && n < |s|
    ensures s[n] !in s[..n]
  {
  }

  /** Distinctness of ids does not depend on the arrangement. */
  lemma DistinctEverywhere(s: seq<Candidate>, t: seq<Candidate>)
    requires DistinctIds(s) && multiset(s) == multiset(t)
    ensures DistinctIds(t)
  {
    forall i, j | 0 <= i < j < |t| ensures t[i].id != t[j].id {
      assert t[i] in multiset(s) && t[j] in multiset(s);
      if t[i].id == t[j].id {
        DistinctMembers(s, t[i], t[j]);
        IdsOccurOnce(s, t[i]);
        TwiceCounts(t, i, j);
      }
    }
  }

  lemma TwiceCounts(t: seq<Candidate>, i: nat, j: nat)
    requires i < j < |t| && t[i] == t[j]
    ensures multiset(t)[t[i]] >= 2
  {
    assert t == t[..j] + [t[j]] + t[j + 1..];
    assert t[i] in t[..j];
  }

  /** Offering one more candidate to the heap, seen as a change of what is kept and dropped. */
  lemma OfferKeepsBest(kept: seq<Candidate>, dropped: seq<Candidate>, worst: Candidate, c: Candidate, next: seq<Candidate>)
    requires KeptBest(kept, dropped) && worst in kept && forall j | 0 <= j < |kept| :: !Better(worst, kept[j])
    requires Better(c, worst) && multiset(next) == multiset(kept) - multiset{worst} + multiset{c}
    ensures KeptBest(next, dropped + [worst])
  {
    hide Better;
    var all := dropped + [worst];
    forall i, j | 0 <= i < |all| && 0 <= j < |next| ensures !Better(all[i], next[j]) {
      assert next[j] in multiset(next);
      assert next[j] == c || next[j] in kept;
      BetterIsOrder(c, worst, c);
      if next[j] == c && i < |dropped| { BetterIsOrder(dropped[i], c, worst); }
    }
  }

  lemma RefuseKeepsBest(kept: seq<Candidate>, dropped: seq<Candidate>, worst: Candidate, c: Candidate)
    requires KeptBest(kept, dropped) && forall j | 0 <= j < |kept| :: !Better(worst, kept[j])
    requires !Better(c, worst)
    ensures KeptBest(kept, dropped + [c])
  {
    hide Better;
    var all := dropped + [c];
    forall i, j | 0 <= i < |all| && 0 <= j < |kept| ensures !Better(all[i], kept[j]) {
      BetterIsOrder(c, worst, kept[j]);
    }
  }

  /** A higher score, or the same score and an id that does not come later. */
  predicate RanksNoLower(a: Candidate, b: Candidate) {
    a.score > b.score || (a.score == b.score && !Before(b.id, a.id))
  }

  /** `scored` holds k of the candidates, or all if there are fewer, by falling score and rising id, and every candidate
      it leaves out scores no higher than each one it holds. */
  ghost predicate BestOf(candidates: seq<Candidate>, k: nat, scored: seq<Candidate>) {
    && |scored| == (if |candidates| < k then |candidates| else k)
    && (forall i, j | 0 <= i < j < |scored| :: RanksNoLower(scored[i], scored[j]))
    && multiset(scored) <= multiset(candidates)
    && forall d <- candidates, c <- scored | multiset(candidates)[d] > multiset(scored)[d] :: RanksNoLower(c, d)
  }

  lemma BestFromKept(all: seq<Candidate>, k: nat, scored: seq<Candidate>, dropped: seq<Candidate>)
    requires Ranked(scored) && KeptBest(scored, dropped) && multiset(all) == multiset(scored) + multiset(dropped)
    requires |scored| == (if |all| < k then |all| else k)
    ensures BestOf(all, k, scored)
  {
    forall i, j | 0 <= i < j < |scored| ensures RanksNoLower(scored[i], scored[j]) { NotBetterRanks(scored[j], scored[i]); }
    forall d <- all, c <- scored | multiset(all)[d] > multiset(scored)[d] ensures RanksNoLower(c, d) {
      assert d in multiset(dropped);
      NotBetterRanks(d, c);
    }
  }

  lemma NotBetterRanks(a: Candidate, b: Candidate)
    ensures !Better(a, b) <==> RanksNoLower(b, a)
  {
  }

  /** The streaming half of the selection: one pass, bounded memory, and the k best in rank order; exactly the first k of
      the ranking when ids are distinct. */
  method KeepBest(candidates: seq<Candidate>, k: nat) returns (scored: seq<Candidate>)
    requires k > 0
    ensures DistinctIds(candidates) ==> scored == TopK(candidates, k)
    ensures BestOf(candidates, k, scored)
  {
    hide Better, Heap, HeapBut, Ranked, KeptBest, DistinctIds, SortRanked, TopK;
    var heap := new BoundedHeap(k);
    ghost var dropped: seq<Candidate> := [];
    var i := 0;
    NothingDropped(heap.items[..heap.size]);
    while i < |candidates|
      invariant i <= |candidates| && heap.Valid() && heap.items.Length == k && fresh(heap.items) && fresh(heap)
      invariant heap.size == (if i < k then i else k) && (dropped != [] ==> heap.size == k)
      invariant multiset(candidates[..i]) == multiset(heap.items[..heap.size]) + multiset(dropped)
      invariant KeptBest(heap.items[..heap.size], dropped)
    {
      var c := candidates[i];
      assert candidates[..i + 1] == candidates[..i] + [c];
      dropped := Offer(heap, c, dropped);
      i := i + 1;
    }
    assert candidates[..i] == candidates;
    ghost var kept := heap.items[..heap.size];
    scored := SortRanked(heap.items[..heap.size]);
    KeptIsBest(candidates, kept, dropped, k);
  }

  lemma KeptIsBest(all: seq<Candidate>, kept: seq<Candidate>, dropped: seq<Candidate>, k: nat)
    requires multiset(all) == multiset(kept) + multiset(dropped) && KeptBest(kept, dropped)
    requires |kept| <= k && (dropped != [] ==> |kept| == k)
    ensures BestOf(all, k, SortRanked(kept))
    ensures DistinctIds(all) ==> SortRanked(kept) == TopK(all, k)
  {
    hide Ranked, KeptBest, SortRanked, TopK, DistinctIds;
    SortIsRanked(kept);
    SameLength(SortRanked(kept), kept);
    SameKeptBest(kept, SortRanked(kept), dropped);
    assert |all| == |kept| + |dropped| by { SameLength(all, kept + dropped); }
    BestFromKept(all, k, SortRanked(kept), dropped);
    if DistinctIds(all) { KeptBestIsTopK(all, kept, dropped, k); }
  }

  lemma SameKeptBest(kept: seq<Candidate>, sorted: seq<Candidate>, dropped: seq<Candidate>)
    requires KeptBest(kept, dropped) && multiset(sorted) == multiset(kept)
    ensures KeptBest(sorted, dropped)
  {
    hide Better;
    forall i, j | 0 <= i < |dropped| && 0 <= j < |sorted| ensures !Better(dropped[i], sorted[j]) {
      assert sorted[j] in multiset(kept);
    }
  }

  /** One candidate of the stream: pushed, put in the place of the worst one, or let go. */
  method Offer(heap: BoundedHeap, c: Candidate, ghost dropped: seq<Candidate>) returns (ghost dropped': seq<Candidate>)
    requires heap.Valid() && heap.items.Length > 0 && KeptBest(heap.items[..heap.size], dropped)
    requires dropped != [] ==> heap.size == heap.items.Length
    modifies heap`size, heap.items
    ensures heap.Valid() && KeptBest(heap.items[..heap.size], dropped')
    ensures dropped' != [] ==> heap.size == heap.items.Length
    ensures heap.size == if old(heap.size) < heap.items.Length then old(heap.size) + 1 else old(heap.size)
    ensures multiset(heap.items[..heap.size]) + multiset(dropped') == multiset(old(heap.items[..heap.size])) + multiset(dropped) + multiset{c}
  {
    hide Better, Heap, KeptBest;
    ghost var kept := heap.items[..heap.size];
    if heap.size < heap.items.Length {
      heap.Push(c);
      NothingDropped(heap.items[..heap.size]);
      dropped' := [];
    } else {
      WorstAtRoot(kept);
      ghost var worst := heap.items[0];
      if Better(c, heap.items[0]) {
        assert worst == kept[0] && worst in kept;
        heap.Replace(c);
        OfferKeepsBest(kept, dropped, worst, c, heap.items[..heap.size]);
        dropped' := dropped + [worst];
        ExchangeCounts(kept, dropped, worst, c, heap.items[..heap.size]);
      } else {
        RefuseKeepsBest(kept, dropped, worst, c);
        dropped' := dropped + [c];
      }
    }
  }

  lemma ExchangeCounts(kept: seq<Candidate>, dropped: seq<Candidate>, worst: Candidate, c: Candidate, next: seq<Candidate>)
    requires worst in kept && multiset(next) == multiset(kept) - multiset{worst} + multiset{c}
    ensures multiset(next) + multiset(dropped + [worst]) == multiset(kept) + multiset(dropped) + multiset{c}
  {
    assert worst in multiset(kept);
  }

  lemma NothingDropped(kept: seq<Candidate>)
    ensures KeptBest(kept, [])
  {
  }

  lemma WorstAtRoot(s: seq<Candidate>)
    requires Heap(s)
    ensures forall j | 0 <= j < |s| :: !Better(s[0], s[j])
  {
    forall j | 0 <= j < |s| ensures !Better(s[0], s[j]) { RootIsWorst(s, j); }
  }

  /** The candidates kept, and their order, do not depend on the order in which they arrive. */
  lemma TopKIgnoresArrival(a: seq<Candidate>, b: seq<Candidate>, k: nat)
    requires DistinctIds(a) && multiset(a) == multiset(b)
    ensures TopK(a, k) == TopK(b, k)
  {
    SortIsRanked(a);
    SortIsRanked(b);
    DistinctEverywhere(a, SortRanked(a));
    RankingIsUnique(SortRanked(a), SortRanked(b));
    SameLength(a, b);
  }

  // ---- near duplicates

  predicate DuplicateOf(c: Candidate, e: Candidate, sim: Similarity) {
    c.content == e.content || sim(c.content, e.content) >= DUPLICATE_AT
  }

  predicate Duplicates(c: Candidate, unique: seq<Candidate>, sim: Similarity) {
    exists i | 0 <= i < |unique| :: DuplicateOf(c, unique[i], sim)
  }

  function Deduped(scored: seq<Candidate>, sim: Similarity): seq<Candidate> {
    if scored == [] then []
    else
      var c, unique := scored[|scored| - 1], Deduped(scored[..|scored| - 1], sim);
      if Duplicates(c, unique, sim) then unique else unique + [c]
  }

  /** No two members, at whatever positions, are alike. */
  predicate Unalike(s: seq<Candidate>, sim: Similarity) {
    forall i, j | 0 <= i < |s| && 0 <= j < |s| && i != j :: !DuplicateOf(s[i], s[j], sim)
  }

  function Texts(s: seq<Candidate>): set<string> {
    set i | 0 <= i < |s| :: s[i].content
  }

  /** The deduplicated list is pairwise unalike, comes from the scored one, and whatever is missing duplicates a
      member ranked before it. */
  lemma {:induction false} DedupedCovers(scored: seq<Candidate>, sim: Similarity)
    requires Symmetric(sim, Texts(scored))
    ensures Unalike(Deduped(scored, sim), sim)
    ensures forall c <- Deduped(scored, sim) :: c in scored
    ensures forall c <- scored :: c in Deduped(scored, sim) || Duplicates(c, Deduped(scored, sim), sim)
    decreases |scored|
  {
    if scored != [] {
      var n := |scored| - 1;
      var c, unique := scored[n], Deduped(scored[..n], sim);
      assert scored == scored[..n] + [c];
      assert forall t <- Texts(scored[..n]) :: t in Texts(scored);
      DedupedCovers(scored[..n], sim);
      if !Duplicates(c, unique, sim) {
        forall i | 0 <= i < |unique| ensures !DuplicateOf(unique[i], c, sim) {
          assert unique[i] in scored;
          assert c in scored;
        }
        forall d <- scored ensures d in unique + [c] || Duplicates(d, unique + [c], sim) {
          if d in scored[..n] && d !in unique {
            var i :| 0 <= i < |unique| && DuplicateOf(d, unique[i], sim);
            assert (unique + [c])[i] == unique[i];
          }
        }
      }
    }
  }

  // ---- maximal marginal relevance under a budget

  function MaxSimilarity(c: Candidate, selected: seq<Candidate>, sim: Similarity): real {
    if selected == [] then 0.0
    else
      var last := sim(c.content, selected[|selected| - 1].content);
      var rest := MaxSimilarity(c, selected[..|selected| - 1], sim);
      if |selected| == 1 || last > rest then last else rest
  }

  function MmrScore(c: Candidate, selected: seq<Candidate>, sim: Similarity): real {
    var bonus := if selected != [] && !(exists i | 0 <= i < |selected| :: selected[i].group == c.group) then 0.04 else 0.0;
    0.80 * c.score - 0.20 * MaxSimilarity(c, selected, sim) + bonus
  }

  predicate Preferred(a: Candidate, b: Candidate, selected: seq<Candidate>, sim: Similarity) {
    var x, y := MmrScore(a, selected, sim), MmrScore(b, selected, sim);
    x > y || (x == y && Before(a.id, b.id))
  }

  /** min(remaining, key = (-mmr, id)): the first of the most preferred. */
  function Pick(remaining: seq<Candidate>, selected: seq<Candidate>, sim: Similarity): (i: nat)
    requires remaining != []
    ensures i < |remaining|
  {
    var n := |remaining| - 1;
    if n == 0 then 0
    else
      var i := Pick(remaining[..n], selected, sim);
      if Preferred(remaining[n], remaining[i], selected, sim) then n else i
  }

  lemma {:induction false} PickIsMostPreferred(remaining: seq<Candidate>, selected: seq<Candidate>, sim: Similarity)
    requires remaining != []
    ensures forall j | 0 <= j < |remaining| ::
      !Preferred(remaining[j], remaining[Pick(remaining, selected, sim)], selected, sim)
    decreases |remaining|
  {
    var n := |remaining| - 1;
    var best := remaining[Pick(remaining, selected, sim)];
    hide MmrScore;
    if n > 0 {
      var before := remaining[Pick(remaining[..n], selected, sim)];
      PickIsMostPreferred(remaining[..n], selected, sim);
      forall j | 0 <= j < |remaining| ensures !Preferred(remaining[j], best, selected, sim) {
        PreferenceIsOrder(remaining[j], best, before, selected, sim);
        if j < n { assert remaining[j] == remaining[..n][j]; }
      }
    } else {
      PreferenceIsOrder(best, best, best, selected, sim);
    }
  }

  lemma PreferenceIsOrder(a: Candidate, b: Candidate, c: Candidate, selected: seq<Candidate>, sim: Similarity)
    ensures !(Preferred(a, a, selected, sim))
    ensures Preferred(a, b, selected, sim) && Preferred(b, c, selected, sim) ==> Preferred(a, c, selected, sim)
  {
    hide MmrScore;
    BeforeIsTotal(a.id, a.id);
    if Before(a.id, b.id) && Before(b.id, c.id) { BeforeIsTransitive(a.id, b.id, c.id); }
  }

  /** The state of the selection loop; skipped holds what did not fit when its turn came. */
  datatype Pool = Pool(selected: seq<Candidate>, remaining: seq<Candidate>, skipped: seq<Candidate>, budget: Option<nat>)

  function Without(s: seq<Candidate>, i: nat): (t: seq<Candidate>)
    requires i < |s|
    ensures |t| == |s| - 1 && multiset(t) + multiset{s[i]} == multiset(s)
  {
    assert s == s[..i] + [s[i]] + s[i + 1..];
    s[..i] + s[i + 1..]
  }

  function Turn(p: Pool, sim: Similarity): (next: Pool)
    requires p.remaining != []
    ensures |next.remaining| == |p.remaining| - 1
  {
    var i := Pick(p.remaining, p.selected, sim);
    var c, rest := p.remaining[i], Without(p.remaining, i);
    if p.budget.Some? && c.tokens > p.budget.value then p.(remaining := rest, skipped := p.skipped + [c])
    else
      p.(selected := p.selected + [c], remaining := rest,
         budget := match p.budget case None => None case Some(b) => Some(b - c.tokens))
  }

  function Choose(p: Pool, limit: nat, sim: Similarity): Pool
    decreases |p.remaining|
  {
    if p.remaining == [] || |p.selected| >= limit then p else Choose(Turn(p, sim), limit, sim)
  }

  function Tokens(s: seq<Candidate>): nat {
    if s == [] then 0 else Tokens(s[..|s| - 1]) + s[|s| - 1].tokens
  }

  /** Nothing is invented or lost, the budget is accounted for, and what was skipped still does not fit. */
  ghost predicate Accounted(p: Pool, unique: seq<Candidate>, budget: Option<nat>) {
    && multiset(p.selected) + multiset(p.remaining) + multiset(p.skipped) == multiset(unique)
    && (p.budget.Some? <==> budget.Some?)
    && (budget.Some? ==> Tokens(p.selected) + p.budget.value == budget.value)
    && (p.skipped != [] ==> p.budget.Some?) && (forall i | 0 <= i < |p.skipped| :: p.skipped[i].tokens > p.budget.value)
  }

  lemma TurnKeepsAccount(p: Pool, unique: seq<Candidate>, budget: Option<nat>, sim: Similarity)
    requires p.remaining != [] && Accounted(p, unique, budget)
    ensures Accounted(Turn(p, sim), unique, budget) && p.selected <= Turn(p, sim).selected
    ensures |Turn(p, sim).selected| <= |p.selected| + 1
  {
    var i := Pick(p.remaining, p.selected, sim);
    hide Pick, Without;
    var c, rest := p.remaining[i], Without(p.remaining, i);
    if p.budget.Some? && c.tokens > p.budget.value {
      SkipKeepsAccount(p, rest, c, unique, budget);
    } else {
      SelectKeepsAccount(p, rest, c, unique, budget);
    }
    hide Accounted;
  }

  lemma SkipKeepsAccount(p: Pool, rest: seq<Candidate>, c: Candidate, unique: seq<Candidate>, budget: Option<nat>)
    requires Accounted(p, unique, budget) && multiset(rest) + multiset{c} == multiset(p.remaining)
    requires p.budget.Some? && c.tokens > p.budget.value
    ensures Accounted(p.(remaining := rest, skipped := p.skipped + [c]), unique, budget)
  {
    hide Tokens;
    Regrouped(multiset(p.selected), multiset(rest), multiset(p.skipped), multiset{c});
    assert multiset(p.skipped + [c]) == multiset(p.skipped) + multiset{c};
  }

  lemma SelectKeepsAccount(p: Pool, rest: seq<Candidate>, c: Candidate, unique: seq<Candidate>, budget: Option<nat>)
    requires Accounted(p, unique, budget) && multiset(rest) + multiset{c} == multiset(p.remaining)
    requires p.budget.Some? ==> c.tokens <= p.budget.value
    ensures var left := match p.budget case None => None case Some(b) => Some(b - c.tokens);
      Accounted(Pool(p.selected + [c], rest, p.skipped, left), unique, budget)
  {
    Regrouped(multiset(p.selected), multiset(rest), multiset(p.skipped), multiset{c});
    assert multiset(p.selected + [c]) == multiset(p.selected) + multiset{c};
    assert (p.selected + [c])[..|p.selected|] == p.selected;
  }

  lemma Regrouped(a: multiset<Candidate>, b: multiset<Candidate>, c: multiset<Candidate>, one: multiset<Candidate>)
    ensures a + (b + one) + c == a + b + (c + one) && a + (b + one) + c == (a + one) + b + c
  {
  }

  lemma {:induction false} ChooseKeepsAccount(p: Pool, unique: seq<Candidate>, budget: Option<nat>, limit: nat, sim: Similarity)
    requires Accounted(p, unique, budget) && |p.selected| <= limit
    ensures var r := Choose(p, limit, sim);
      && Accounted(r, unique, budget) && p.selected <= r.selected && |r.selected| <= limit
      && (|r.selected| < limit ==> r.remaining == [])
    decreases |p.remaining|
  {
    hide Accounted, Turn;
    if p.remaining != [] && |p.selected| < limit {
      TurnKeepsAccount(p, unique, budget, sim);
      ChooseKeepsAccount(Turn(p, sim), unique, budget, limit, sim);
    }
  }

  /** Asking for more only adds at the end. */
  lemma {:induction false} LargerLimitExtends(p: Pool, unique: seq<Candidate>, budget: Option<nat>, small: nat, large: nat, sim: Similarity)
    requires Accounted(p, unique, budget) && small <= large && |p.selected| <= small
    ensures Choose(p, small, sim).selected <= Choose(p, large, sim).selected
    decreases |p.remaining|
  {
    hide Accounted, Turn;
    if p.remaining != [] {
      if |p.selected| < small {
        TurnKeepsAccount(p, unique, budget, sim);
        LargerLimitExtends(Turn(p, sim), unique, budget, small, large, sim);
      } else {
        ChooseKeepsAccount(p, unique, budget, large, sim);
      }
    }
  }

  function Opening(unique: seq<Candidate>, budget: Option<nat>): Pool {
    Pool([], unique, [], budget)
  }

  lemma {:induction false} PartIsUnalike(part: seq<Candidate>, rest: multiset<Candidate>, whole: seq<Candidate>, sim: Similarity)
    requires multiset(part) + rest == multiset(whole) && Unalike(whole, sim)
    ensures Unalike(part, sim)
  {
    forall i, j | 0 <= i < |part| && 0 <= j < |part| && i != j ensures !DuplicateOf(part[i], part[j], sim) {
      assert part[i] in multiset(whole) && part[j] in multiset(whole);
      var x :| 0 <= x < |whole| && whole[x] == part[i];
      var y :| 0 <= y < |whole| && whole[y] == part[j];
      if x == y {
        if i < j { TwiceCounts(part, i, j); } else { TwiceCounts(part, j, i); }
        AppearsOnce(whole, part[i], sim);
      }
    }
  }

  lemma {:induction false} AppearsOnce(s: seq<Candidate>, c: Candidate, sim: Similarity)
    requires Unalike(s, sim)
    ensures multiset(s)[c] <= 1
    decreases |s|
  {
    if s != [] {
      var n := |s| - 1;
      assert s == s[..n] + [s[n]];
      AppearsOnce(s[..n], c, sim);
    }
  }

  /** The greedy selection: at most `limit` members, within the budget, pairwise unalike; and if there are fewer
      than `limit`, no unchosen candidate of the deduplicated list fits what is left of the budget. */
  lemma GreedySelection(unique: seq<Candidate>, budget: Option<nat>, limit: nat, sim: Similarity)
    requires Unalike(unique, sim)
    ensures var r := Choose(Opening(unique, budget), limit, sim);
      && |r.selected| <= limit
      && (budget.Some? ==> Tokens(r.selected) <= budget.value)
      && Unalike(r.selected, sim)
      && (forall c <- r.selected :: c in unique)
      && (|r.selected| < limit ==>
            forall c <- unique | c !in r.selected :: budget.Some? && c.tokens > budget.value - Tokens(r.selected))
  {
    var r := Choose(Opening(unique, budget), limit, sim);
    hide Choose, DuplicateOf;
    ChooseKeepsAccount(Opening(unique, budget), unique, budget, limit, sim);
    PartIsUnalike(r.selected, multiset(r.remaining) + multiset(r.skipped), unique, sim);
    forall c <- r.selected ensures c in unique { assert c in multiset(unique); }
    forall c <- unique | c !in r.selected && r.remaining == [] ensures c in r.skipped {
      assert c in multiset(unique);
    }
  }

  // ---- the whole selection

  /** A record, the verdicts that exclude it, and the candidate its scoring makes of it. */
  datatype Record = Record(instruction: bool, blank: bool, candidate: Candidate)

  function Eligible(records: seq<Record>): seq<Candidate> {
    if records == [] then []
    else
      var r := records[|records| - 1];
      Eligible(records[..|records| - 1]) + if r.instruction || r.blank then [] else [r.candidate]
  }

  function Bounded(limit: int): (n: nat)
    ensures 1 <= n <= MAX_RESULTS
  {
    if limit < 1 then 1 else if limit > MAX_RESULTS then MAX_RESULTS else limit
  }

  function BudgetOf(maxTokens: Option<int>): Option<nat> {
    match maxTokens case None => None case Some(t) => Some(if t < 0 then 0 else t)
  }

  function Selection(records: seq<Record>, limit: int, maxTokens: Option<int>, sim: Similarity): Pool {
    SelectionFrom(TopK(Eligible(records), MAX_RERANK_CANDIDATES), limit, maxTokens, sim)
  }

  function SelectionFrom(scored: seq<Candidate>, limit: int, maxTokens: Option<int>, sim: Similarity): Pool {
    Choose(Opening(Deduped(scored, sim), BudgetOf(maxTokens)), Bounded(limit), sim)
  }

  function Flatten(batches: seq<seq<Record>>): seq<Record> {
    if batches == [] then [] else batches[0] + Flatten(batches[1..])
  }

  /** With distinct ids neither the order in which records arrive nor the batches the backend cuts them into can be
      seen in the result. */
  lemma SelectionIgnoresArrival(a: seq<seq<Record>>, b: seq<seq<Record>>, limit: int, maxTokens: Option<int>, sim: Similarity)
    requires multiset(Eligible(Flatten(a))) == multiset(Eligible(Flatten(b))) && DistinctIds(Eligible(Flatten(a)))
    ensures Selection(Flatten(a), limit, maxTokens, sim) == Selection(Flatten(b), limit, maxTokens, sim)
  {
    TopKIgnoresArrival(Eligible(Flatten(a)), Eligible(Flatten(b)), MAX_RERANK_CANDIDATES);
  }

  /** A larger limit only extends the result of a smaller one. */
  lemma SelectionExtends(records: seq<Record>, small: int, large: int, maxTokens: Option<int>, sim: Similarity)
    requires small <= large
    ensures Selection(records, small, maxTokens, sim).selected <= Selection(records, large, maxTokens, sim).selected
  {
    var unique := Deduped(TopK(Eligible(records), MAX_RERANK_CANDIDATES), sim);
    LargerLimitExtends(Opening(unique, BudgetOf(maxTokens)), unique, BudgetOf(maxTokens), Bounded(small), Bounded(large), sim);
  }

  datatype HybridSelection = HybridSelection(items: seq<Candidate>, candidateCount: nat, duplicateCount: nat,
                                             budgetSkipped: nat, tokenEstimate: nat, budget: Option<nat>)

  method RemoveDuplicates(scored: seq<Candidate>, sim: Similarity) returns (unique: seq<Candidate>, duplicates: nat)
    ensures unique == Deduped(scored, sim) && duplicates + |unique| == |scored|
  {
    unique, duplicates := [], 0;
    var contents: set<string> := {};
    var i := 0;
    while i < |scored|
      invariant i <= |scored| && unique == Deduped(scored[..i], sim) && duplicates + |unique| == i
      invariant contents == Texts(unique)
    {
      var c := scored[i];
      assert scored[..i + 1][..i] == scored[..i];
      if c.content in contents {
        assert Duplicates(c, unique, sim);
        duplicates := duplicates + 1;
      } else if exists j | 0 <= j < |unique| :: sim(c.content, unique[j].content) >= DUPLICATE_AT {
        assert Duplicates(c, unique, sim);
        duplicates := duplicates + 1;
      } else {
        assert Texts(unique + [c]) == Texts(unique) + {c.content} by {
          assert forall j | 0 <= j < |unique| :: (unique + [c])[j] == unique[j];
          assert (unique + [c])[|unique|] == c;
        }
        contents := contents + {c.content};
        unique := unique + [c];
      }
      i := i + 1;
    }
    assert scored[..i] == scored;
  }

  method EligibleCandidates(records: seq<Record>) returns (candidates: seq<Candidate>)
    ensures candidates == Eligible(records)
  {
    candidates := [];
    var n := 0;
    while n < |records|
      invariant n <= |records| && candidates == Eligible(records[..n])
    {
      assert records[..n + 1][..n] == records[..n];
      if !records[n].instruction && !records[n].blank { candidates := candidates + [records[n].candidate]; }
      n := n + 1;
    }
    assert records[..n] == records;
  }

  /** The selection loop. */
  method ChooseWithin(unique: seq<Candidate>, budget: Option<nat>, limit: nat, sim: Similarity) returns (pool: Pool)
    ensures pool == Choose(Opening(unique, budget), limit, sim)
  {
    hide Pick;
    pool := Opening(unique, budget);
    while pool.remaining != [] && |pool.selected| < limit
      invariant Choose(pool, limit, sim) == Choose(Opening(unique, budget), limit, sim)
      decreases |pool.remaining|
    {
      var i := Pick(pool.remaining, pool.selected, sim);
      var c := pool.remaining[i];
      var rest := pool.remaining[..i] + pool.remaining[i + 1..];
      if pool.budget.Some? && c.tokens > pool.budget.value {
        pool := pool.(remaining := rest, skipped := pool.skipped + [c]);
      } else {
        pool := pool.(selected := pool.selected + [c], remaining := rest,
                      budget := if pool.budget.None? then None else Some(pool.budget.value - c.tokens));
      }
    }
  }

  /** scored is what the bounded pass kept. */
  method SelectHybridMemories(records: seq<Record>, limit: int, maxTokens: Option<int>, sim: Similarity)
    returns (s: HybridSelection, ghost scored: seq<Candidate>)
    ensures BestOf(Eligible(records), MAX_RERANK_CANDIDATES, scored)
    ensures DistinctIds(Eligible(records)) ==> SelectionFrom(scored, limit, maxTokens, sim) == Selection(records, limit, maxTokens, sim)
    ensures s.items == SelectionFrom(scored, limit, maxTokens, sim).selected
    ensures |s.items| <= Bounded(limit) && s.tokenEstimate == Tokens(s.items)
    ensures s.budget == BudgetOf(maxTokens) && (s.budget.Some? ==> s.tokenEstimate <= s.budget.value)
    ensures s.candidateCount == |Eligible(records)| && s.duplicateCount + |Deduped(scored, sim)| == |scored|
    ensures s.budgetSkipped == |SelectionFrom(scored, limit, maxTokens, sim).skipped|
  {
    hide Choose, Deduped, TopK, DistinctIds, Ranked, Eligible, Accounted, BestOf;
    var candidates := EligibleCandidates(records);
    var kept := KeepBest(candidates, MAX_RERANK_CANDIDATES);
    scored := kept;
    var unique, duplicates := RemoveDuplicates(kept, sim);
    var bounded, budget := Bounded(limit), BudgetOf(maxTokens);
    var pool := ChooseWithin(unique, budget, bounded, sim);
    OpeningAccounted(unique, budget);
    ChooseKeepsAccount(Opening(unique, budget), unique, budget, bounded, sim);
    AccountedFits(pool, unique, budget);
    s := HybridSelection(pool.selected, |candidates|, duplicates, |pool.skipped|, Tokens(pool.selected), budget);
  }

  lemma OpeningAccounted(unique: seq<Candidate>, budget: Option<nat>)
    ensures Accounted(Opening(unique, budget), unique, budget)
  {
  }

  lemma AccountedFits(p: Pool, unique: seq<Candidate>, budget: Option<nat>)
    requires Accounted(p, unique, budget)
    ensures budget.Some? ==> Tokens(p.selected) <= budget.value
  {
  }

  /** What every selection promises its caller. */
  lemma SelectionPromises(records: seq<Record>, limit: int, maxTokens: Option<int>, sim: Similarity)
    requires Symmetric(sim, Texts(TopK(Eligible(records), MAX_RERANK_CANDIDATES)))
    ensures var r, budget := Selection(records, limit, maxTokens, sim).selected, BudgetOf(maxTokens);
      var unique := Deduped(TopK(Eligible(records), MAX_RERANK_CANDIDATES), sim);
      && |r| <= Bounded(limit) && (budget.Some? ==> Tokens(r) <= budget.value) && Unalike(r, sim)
      && (forall c <- r :: c in unique)
      && (|r| < Bounded(limit) ==> forall c <- unique | c !in r :: budget.Some? && c.tokens > budget.value - Tokens(r))
  {
    var scored := TopK(Eligible(records), MAX_RERANK_CANDIDATES);
    DedupedCovers(scored, sim);
    GreedySelection(Deduped(scored, sim), BudgetOf(maxTokens), Bounded(limit), sim);
  }

  // ---- the token estimate

  const ITEM_OVERHEAD := 8

  predicate IsCjk(c: char) {
    '\U{3400}' <= c <= '\U{4dbf}' || '\U{4e00}' <= c <= '\U{9fff}' || '\U{f900}' <= c <= '\U{faff}'
  }

  predicate IsWordChar(c: char) {
    '0' <= c <= '9' || 'a' <= c <= 'z' || 'A' <= c <= 'Z'
  }

  /** The length of the run of word characters a text starts with. */
  function RunLength(text: string): (n: nat)
    ensures n <= |text| && (text != [] && IsWordChar(text[0]) ==> n > 0)
    ensures forall i | 0 <= i < n :: IsWordChar(text[i])
    ensures n < |text| ==> !IsWordChar(text[n])
  {
    if text == [] || !IsWordChar(text[0]) then 0 else 1 + RunLength(text[1..])
  }

  /** One token a CJK character or symbol, one for every three characters of a word, rounded up, none for blanks. */
  function Estimate(text: string): nat
    decreases |text|
  {
    if text == [] then 0
    else if IsWordChar(text[0]) then (RunLength(text) + 2) / 3 + Estimate(text[RunLength(text)..])
    else (if text[0] == ' ' then 0 else 1) + Estimate(text[1..])
  }

  /** estimate_tokens on normalised text, scanning with an index. */
  method EstimateTokens(text: string) returns (estimate: nat)
    ensures estimate == ITEM_OVERHEAD + Estimate(text)
  {
    hide RunLength;
    estimate := ITEM_OVERHEAD;
    var index := 0;
    assert text[0..] == text;
    while index < |text|
      invariant index <= |text| && estimate + Estimate(text[index..]) == ITEM_OVERHEAD + Estimate(text)
    {
      var c := text[index];
      assert text[index..][1..] == text[index + 1..];
      if IsCjk(c) {
        estimate := estimate + 1;
        index := index + 1;
      } else if IsWordChar(c) {
        var end := index + 1;
        while end < |text| && IsWordChar(text[end])
          invariant index < end <= |text| && forall i | index <= i < end :: IsWordChar(text[i])
        {
          end := end + 1;
        }
        RunCosts(text, index, end);
        estimate := estimate + (if (end - index + 2) / 3 > 1 then (end - index + 2) / 3 else 1);
        index := end;
      } else {
        if c != ' ' { estimate := estimate + 1; }
        index := index + 1;
      }
    }
  }

  lemma RunCosts(text: string, index: nat, end: nat)
    requires index < end <= |text| && (forall i | index <= i < end :: IsWordChar(text[i])) && (end < |text| ==> !IsWordChar(text[end]))
    ensures Estimate(text[index..]) == (end - index + 2) / 3 + Estimate(text[end..]) && (end - index + 2) / 3 >= 1
  {
    RunIs(text[index..], end - index);
    assert text[index..][end - index..] == text[end..];
  }

  lemma RunIs(text: string, n: nat)
    requires n <= |text| && (forall i | 0 <= i < n :: IsWordChar(text[i])) && (n < |text| ==> !IsWordChar(text[n]))
    ensures RunLength(text) == n
  {
    var r := RunLength(text);
    assert r < |text| ==> !IsWordChar(text[r]);
  }

  /** Cutting a text in two never makes it look cheaper, so a budget cannot be beaten by splitting a memory. */
  lemma {:induction false} SplittingNeverSaves(a: string, b: string)
    ensures Estimate(a + b) <= Estimate(a) + Estimate(b)
    decreases |a|
  {
    if a == [] {
      assert a + b == b;
    } else if IsWordChar(a[0]) {
      var r := RunLength(a);
      if r < |a| {
        RunIs(a + b, r);
        assert (a + b)[r..] == a[r..] + b;
        SplittingNeverSaves(a[r..], b);
      } else {
        WordJoins(a, b);
      }
    } else {
      assert (a + b)[1..] == a[1..] + b;
      SplittingNeverSaves(a[1..], b);
    }
  }

  lemma WordJoins(a: string, b: string)
    requires a != [] && RunLength(a) == |a|
    ensures Estimate(a + b) <= Estimate(a) + Estimate(b)
  {
    var q := RunLength(b);
    RunIs(a + b, |a| + q);
    assert (a + b)[|a| + q..] == b[q..];
    assert a[|a|..] == [];
    assert Estimate(a) == (|a| + 2) / 3;
    if b != [] && IsWordChar(b[0]) {
      assert Estimate(b) == (q + 2) / 3 + Estimate(b[q..]);
    } else {
      assert q == 0 && b[q..] == b;
    }
  }
}
