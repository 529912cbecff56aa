/** What any sequence of GBrain transactions keeps about the superseded_by graph and about tombstones. */
module SupersedeGraph {
  import opened Names
  import opened GBrain

  datatype Call =
    | UpsertCall(key: Key, source: string, content: string)
    | SupersedeCall(key: Key, oldId: FactId, newId: FactId)
    | ExpireCall(key: Key, id: FactId, tombstone: bool)
    | RestoreCall(key: Key, oldId: FactId, newId: FactId)
    | ReactivateCall(key: Key, id: FactId)
    | RebuildCall(key: Key, source: string, refs: set<FactId>, binding: ScopeBinding)

  function Apply(b: Brain, call: Call): Brain {
    match call
    case UpsertCall(key, source, content) => Upsert(b, key, source, content).brain
    case SupersedeCall(key, oldId, newId) => Supersede(b, key, oldId, newId).brain
    case ExpireCall(key, id, tombstone) => SetExpired(b, key, id, if tombstone then TombstoneOp else ArchiveOp).brain
    case RestoreCall(key, oldId, newId) => Restore(b, key, oldId, newId).brain
    case ReactivateCall(key, id) => Reactivate(b, key, id).brain
    case RebuildCall(key, source, refs, binding) => Rebuild(b, key, source, refs, binding).brain
  }

  function Run(b: Brain, calls: seq<Call>): Brain
    decreases |calls|
  {
    if calls == [] then b else Run(Apply(b, calls[0]), calls[1..])
  }

  /** The fact reached by following superseded_by n times, or None when the chain is shorter. */
  function Follow(facts: seq<Fact>, id: FactId, n: nat): Option<FactId>
    decreases n
  {
    if id >= |facts| then None
    else if n == 0 then Some(id)
    else if facts[id].supersededBy.None? then None
    else Follow(facts, facts[id].supersededBy.value, n - 1)
  }

  /** A rank that strictly falls along superseded_by, whose pointers stay inside one tenant source. */
  ghost predicate Ranked(facts: seq<Fact>, rank: seq<nat>) {
    && |rank| == |facts|
    && forall i | 0 <= i < |facts| && facts[i].supersededBy.Some? ::
      var j := facts[i].supersededBy.value;
      j < |facts| && facts[j].source == facts[i].source && rank[j] < rank[i]
  }

  /** One transaction keeps a rank; only supersede adds an edge, and it points at a fact without one. */
  lemma ApplyKeepsRank(b: Brain, call: Call, rank: seq<nat>) returns (rank': seq<nat>)
    requires Ranked(b.facts, rank)
    ensures Ranked(Apply(b, call).facts, rank')
  {
    match call
    case UpsertCall(key, source, content) =>
      rank' := if Apply(b, call).facts == b.facts then rank else rank + [0];
    case SupersedeCall(key, oldId, newId) =>
      rank' := SupersedeKeepsRank(b, key, oldId, newId, rank);
    case _ =>
      OthersKeepRank(b, call, rank);
      rank' := rank;
  }

  lemma SupersedeKeepsRank(b: Brain, key: Key, oldId: FactId, newId: FactId, rank: seq<nat>) returns (rank': seq<nat>)
    requires Ranked(b.facts, rank)
    ensures Ranked(Supersede(b, key, oldId, newId).brain.facts, rank')
  {
    if Supersede(b, key, oldId, newId).brain.facts == b.facts {
      rank' := rank;
    } else {
      rank' := seq(|rank|, i requires 0 <= i < |rank| => if i == newId then 0 else rank[i] + 1);
    }
  }

  lemma OthersKeepRank(b: Brain, call: Call, rank: seq<nat>)
    requires Ranked(b.facts, rank) && !call.UpsertCall? && !call.SupersedeCall?
    ensures Ranked(Apply(b, call).facts, rank)
  {
  }

  lemma {:induction false} RunKeepsRank(b: Brain, calls: seq<Call>, rank: seq<nat>) returns (rank': seq<nat>)
    requires Ranked(b.facts, rank)
    ensures Ranked(Run(b, calls).facts, rank')
    decreases |calls|
  {
    if calls == [] {
      rank' := rank;
    } else {
      rank' := ApplyKeepsRank(b, calls[0], rank);
      rank' := RunKeepsRank(Apply(b, calls[0]), calls[1..], rank');
    }
  }

  lemma {:induction false} FollowFalls(facts: seq<Fact>, rank: seq<nat>, id: FactId, n: nat)
    requires Ranked(facts, rank) && id < |facts|
    requires Follow(facts, id, n).Some?
    ensures var j := Follow(facts, id, n).value;
      j < |facts| && facts[j].source == facts[id].source && rank[j] + n <= rank[id]
    decreases n
  {
    if n > 0 {
      FollowFalls(facts, rank, facts[id].supersededBy.value, n - 1);
    }
  }

  lemma {:induction false} ChainEnds(facts: seq<Fact>, rank: seq<nat>, id: FactId) returns (n: nat)
    requires Ranked(facts, rank) && id < |facts|
    ensures Follow(facts, id, n).Some? && Follow(facts, id, n).value < |facts|
    ensures facts[Follow(facts, id, n).value].supersededBy.None?
    decreases rank[id]
  {
    if facts[id].supersededBy.None? {
      n := 0;
    } else {
      n := ChainEnds(facts, rank, facts[id].supersededBy.value);
      n := n + 1;
    }
  }

  /** After any run from the empty store no chain comes back to its start. */
  lemma NoCycle(calls: seq<Call>, id: FactId, n: nat)
    requires n > 0
    ensures Follow(Run(EMPTY_BRAIN, calls).facts, id, n) != Some(id)
  {
    var rank := RunKeepsRank(EMPTY_BRAIN, calls, []);
    var facts := Run(EMPTY_BRAIN, calls).facts;
    if id < |facts| && Follow(facts, id, n).Some? {
      FollowFalls(facts, rank, id, n);
    }
  }

  /** After any run from the empty store every chain ends, in the tenant source it started in. */
  lemma EveryChainEndsInItsSource(calls: seq<Call>, id: FactId)
    requires id < |Run(EMPTY_BRAIN, calls).facts|
    ensures var facts := Run(EMPTY_BRAIN, calls).facts;
      exists n: nat {:trigger Follow(facts, id, n)} ::
        && Follow(facts, id, n).Some? && Follow(facts, id, n).value < |facts|
        && facts[Follow(facts, id, n).value].supersededBy.None?
        && facts[Follow(facts, id, n).value].source == facts[id].source
  {
    var rank := RunKeepsRank(EMPTY_BRAIN, calls, []);
    var facts := Run(EMPTY_BRAIN, calls).facts;
    var n := ChainEnds(facts, rank, id);
    FollowFalls(facts, rank, id, n);
  }

  /** Every tombstoned fact exists and is expired. */
  ghost predicate TombstonesHold(b: Brain) {
    forall id: FactId | Tombstoned(b, id) :: id < |b.facts| && b.facts[id].expired
  }

  lemma ApplyKeepsTombstones(b: Brain, call: Call)
    requires TombstonesHold(b)
    ensures TombstonesHold(Apply(b, call))
    ensures forall id: FactId :: Tombstoned(b, id) ==> Tombstoned(Apply(b, call), id)
  {
    var b' := Apply(b, call);
    OperationsStay(b, call);
    NewTombstoneExpires(b, call);
    hide Apply;
    forall id: FactId | Tombstoned(b, id)
      ensures Tombstoned(b', id)
    {
      var key :| key in b.operations && b.operations[key].kind == TombstoneOp && b.operations[key].target == OnFact(id);
      assert key in b'.operations && b'.operations[key] == b.operations[key];
    }
    forall id: FactId | Tombstoned(b', id)
      ensures id < |b'.facts| && b'.facts[id].expired
    {
      var key :| key in b'.operations && b'.operations[key].kind == TombstoneOp && b'.operations[key].target == OnFact(id);
      if key in b.operations {
        assert Tombstoned(b, id);
        ExpiryStays(b, call, id);
      }
    }
  }

  lemma OperationsStay(b: Brain, call: Call)
    ensures forall key <- b.operations :: key in Apply(b, call).operations && Apply(b, call).operations[key] == b.operations[key]
  {
    hide Tombstoned;
  }

  lemma NewTombstoneExpires(b: Brain, call: Call)
    ensures var b' := Apply(b, call);
      forall key <- b'.operations | key !in b.operations && b'.operations[key].kind == TombstoneOp && b'.operations[key].target.OnFact? ::
        b'.operations[key].target.id < |b'.facts| && b'.facts[b'.operations[key].target.id].expired
  {
    hide Tombstoned;
  }

  /** Only a reactivation clears an expiry, and it refuses a tombstoned fact. */
  lemma ExpiryStays(b: Brain, call: Call, id: FactId)
    requires Tombstoned(b, id) && id < |b.facts| && b.facts[id].expired
    ensures id < |Apply(b, call).facts| && Apply(b, call).facts[id].expired
  {
    hide Tombstoned;
  }

  /** Once tombstoned, a fact is never live again, whatever transactions follow. */
  lemma {:induction false} TombstoneIsFinal(b: Brain, calls: seq<Call>, id: FactId)
    requires TombstonesHold(b) && Tombstoned(b, id)
    ensures id < |Run(b, calls).facts| && !Run(b, calls).facts[id].Live()
    decreases |calls|
  {
    if calls != [] {
      ApplyKeepsTombstones(b, calls[0]);
      TombstoneIsFinal(Apply(b, calls[0]), calls[1..], id);
    }
  }

  /** The premise of TombstoneIsFinal holds of every state a run from the empty store reaches. */
  lemma {:induction false} RunKeepsTombstones(b: Brain, calls: seq<Call>)
    requires TombstonesHold(b)
    ensures TombstonesHold(Run(b, calls))
    decreases |calls|
  {
    if calls != [] {
      ApplyKeepsTombstones(b, calls[0]);
      RunKeepsTombstones(Apply(b, calls[0]), calls[1..]);
    }
  }
}
