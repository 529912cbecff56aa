/** What the invariants of every run say about a candidate's log, an event's receipt and a scope's crystal. */
module RunTheorems {
  import opened Names
  import opened GBrain
  import opened Ledger
  import opened Lifecycle
  import opened LedgerInvariants
  import opened AllRuns

  lemma EveryRunKeepsTheLedger(attempts: seq<Attempt>)
    ensures StoreOk(Run(EMPTY, attempts))
  {
    RunKeepsStore(EMPTY, attempts);
  }

  /** A run from the empty stores, with any crashes, ends here. */
  ghost predicate Reached(s: Store) {
    exists attempts :: Run(EMPTY, attempts) == s
  }

  /** The crystals of these scopes are not ready, and the others are as before. */
  predicate OnlyStale(crystals: map<ScopeBinding, Crystal>, crystals': map<ScopeBinding, Crystal>, touched: set<ScopeBinding>) {
    && crystals'.Keys == crystals.Keys
    && forall b <- crystals :: crystals'[b] == if b in touched then crystals[b].(ready := false) else crystals[b]
  }

  // ---- the review log

  /** The committed operations of one candidate, in commit order. */
  function History(ops: seq<Op>, v: nat): seq<Op> {
    if ops == [] then []
    else
      var n := |ops| - 1;
      if ops[n].review == v then History(ops[..n], v) + [ops[n]] else History(ops[..n], v)
  }

  lemma {:induction false} HistoryHas(ops: seq<Op>, v: nat, i: nat)
    requires i < |ops| && ops[i].review == v
    ensures ops[i] in History(ops, v)
  {
    if i < |ops| - 1 {
      HistoryHas(ops[..|ops| - 1], v, i);
    }
  }

  lemma {:induction false} HistoryFrom(ops: seq<Op>, v: nat, o: Op)
    requires o in History(ops, v)
    ensures o.review == v && exists i :: 0 <= i < |ops| && ops[i] == o
  {
    var n := |ops| - 1;
    if o in History(ops[..n], v) {
      HistoryFrom(ops[..n], v, o);
      var i :| 0 <= i < n && ops[..n][i] == o;
      assert ops[i] == o;
    } else {
      assert ops[n] == o;
    }
  }

  /** In every prefix of the log a candidate's operations sit at positions 1, 2, 3, ... without gaps. */
  lemma {:induction false} HistoryPositions(l: Ledger, v: nat, n: nat)
    requires LogsAlternate(l) && v < |l.reviews| && n <= |l.ops|
    ensures var h := History(l.ops[..n], v); forall j | 0 <= j < |h| :: h[j].expected == j + 1
  {
    if n > 0 {
      HistoryPositions(l, v, n - 1);
      HistoryGrows(l.ops, v, n - 1);
      hide History, LogsAlternate;
      var h := History(l.ops[..n - 1], v);
      if l.ops[n - 1].review == v {
        NextPosition(l, v, n - 1, h);
      }
    }
  }

  lemma HistoryGrows(ops: seq<Op>, v: nat, n: nat)
    requires n < |ops|
    ensures History(ops[..n + 1], v) == if ops[n].review == v then History(ops[..n], v) + [ops[n]] else History(ops[..n], v)
  {
    assert ops[..n + 1][..n] == ops[..n];
  }

  lemma NextPosition(l: Ledger, v: nat, n: nat, h: seq<Op>)
    requires LogsAlternate(l) && v < |l.reviews| && n < |l.ops| && l.ops[n].review == v
    requires h == History(l.ops[..n], v) && forall j | 0 <= j < |h| :: h[j].expected == j + 1
    ensures l.ops[n].expected == |h| + 1
  {
    var p := l.ops[n].expected;
    LoggedOp(l, n);
    if h != [] {
      HistoryFrom(l.ops[..n], v, h[|h| - 1]);
      var i :| 0 <= i < n && l.ops[..n][i] == h[|h| - 1];
      assert l.ops[i].expected < p;
    }
    if p > |h| + 1 {
      assert LogHas(l.ops, v, |h| + 1);
      var i :| 0 <= i < |l.ops| && l.ops[i].review == v && l.ops[i].expected == |h| + 1;
      assert i < n;
      HistoryHas(l.ops[..n], v, i);
    }
  }

  /** A candidate's operations strictly alternate resolve and revert, each revert compensating the operation
      just before it; its revision is one more than their number, and it is open exactly when that is even. */
  lemma LogAlternates(s: Store, v: nat)
    requires StoreOk(s) && v < |s.ledger.reviews|
    ensures var h, c := History(s.ledger.ops, v), s.ledger.reviews[v];
      && c.revision == 1 + |h|
      && (c.status == Open <==> |h| % 2 == 0)
      && (forall j | 0 <= j < |h| :: Alternates(s.ledger.ops, h, j))
  {
    hide History, Alternates, LogsAlternate, OpInLog, EffectsMatch, OriginsMatch, EventsMatch, KeysMatch, CrystalsFresh, TombstonesMatch;
    var l, ops := s.ledger, s.ledger.ops;
    var h, c := History(ops, v), l.reviews[v];
    LedgerLog(l);
    assert ops[..|ops|] == ops;
    HistoryPositions(l, v, |ops|);
    CandidateStatus(l, v);
    HistoryLength(l, v);
    forall j | 0 <= j < |h| ensures Alternates(ops, h, j) {
      HistoryStep(l, v, j);
    }
  }

  lemma LedgerLog(l: Ledger)
    requires LedgerOk(l)
    ensures LogsAlternate(l)
  {
    hide LogsAlternate;
  }

  lemma CandidateStatus(l: Ledger, v: nat)
    requires LogsAlternate(l) && v < |l.reviews|
    ensures l.reviews[v].revision >= 1 && (l.reviews[v].status == Open <==> l.reviews[v].revision % 2 == 1)
  {
    assert ReviewMatchesLog(l, v);
    hide OpInLog, LogHas;
  }

  /** The j-th operation of a history resolves when j is even, and undoes its predecessor when j is odd. */
  ghost predicate Alternates(ops: seq<Op>, h: seq<Op>, j: nat)
    requires j < |h|
  {
    if j % 2 == 0 then h[j].action != Revert
    else h[j].action == Revert && h[j].compensates.Some? && h[j].compensates.value < |ops| && ops[h[j].compensates.value] == h[j - 1]
  }

  lemma HistoryStep(l: Ledger, v: nat, j: nat)
    requires LogsAlternate(l) && j < |History(l.ops, v)|
    requires var h := History(l.ops, v); forall m | 0 <= m < |h| :: h[m].expected == m + 1
    ensures Alternates(l.ops, History(l.ops, v), j)
  {
    hide LogsAlternate, History;
    var h := History(l.ops, v);
    HistoryFrom(l.ops, v, h[j]);
    var i :| 0 <= i < |l.ops| && l.ops[i] == h[j];
    LoggedOp(l, i);
    if j % 2 == 1 {
      HistoryHas(l.ops, v, h[j].compensates.value);
      var m :| 0 <= m < |h| && h[m] == l.ops[h[j].compensates.value];
    }
  }

  lemma HistoryLength(l: Ledger, v: nat)
    requires LogsAlternate(l) && v < |l.reviews|
    requires forall j | 0 <= j < |History(l.ops, v)| :: History(l.ops, v)[j].expected == j + 1
    ensures l.reviews[v].revision == 1 + |History(l.ops, v)|
  {
    var h, c := History(l.ops, v), l.reviews[v];
    assert ReviewMatchesLog(l, v);
    if h != [] {
      HistoryFrom(l.ops, v, h[|h| - 1]);
      var i :| 0 <= i < |l.ops| && l.ops[i] == h[|h| - 1];
      LoggedOp(l, i);
    }
    if c.revision > 1 {
      HistoryHas(l.ops, v, c.lastOp.value);
    }
  }

  /** No operation is compensated twice, so the "already reverted" check has nothing left to catch. */
  lemma CompensatedOnce(s: Store, i: nat, j: nat)
    requires StoreOk(s) && i < |s.ledger.ops| && j < |s.ledger.ops| && i != j
    requires s.ledger.ops[i].action == Revert && s.ledger.ops[j].action == Revert
    ensures s.ledger.ops[i].compensates != s.ledger.ops[j].compensates
  {
    LoggedOp(s.ledger, i);
    LoggedOp(s.ledger, j);
  }

  // ---- events, receipts and facts

  /** Receipts, GBrain bindings and the identity of events, once written, are never rewritten. */
  ghost predicate Extends(s: Store, s': Store) {
    && (forall k <- s.ledger.receipts :: k in s'.ledger.receipts && s'.ledger.receipts[k] == s.ledger.receipts[k])
    && (forall k <- s.brain.bindings :: k in s'.brain.bindings && s'.brain.bindings[k] == s.brain.bindings[k])
    && (forall k <- s.ledger.events :: k in s'.ledger.events && SameSubmission(s.ledger.events[k], s'.ledger.events[k]))
  }

  predicate SameSubmission(e: Event, e': Event) {
    && e'.payload == e.payload && e'.workspace == e.workspace && e'.scope == e.scope
    && (e.status == Applied ==> e'.status == Applied)
  }

  lemma ResolveExtends(s: Store, q: ResolveRequest, commits: nat)
    ensures Extends(s, Resolve(s, q, commits).store)
  {
    hide Extends, ResolveStop, ConfirmBrain, ConfirmRefusal, CommitConfirm, CommitClose;
    var l, b := s.ledger, s.brain;
    ExtendsItself(s);
    if ResolveStop(l, q).None? && commits > 0 {
      if q.action.CreatesFact() {
        var step := ConfirmBrain(l, b, q, commits);
        ConfirmBrainExtends(l, b, q, commits);
        BindingsExtend(l, b, step.brain);
        if step.reply.Ok? {
          ConfirmExtends(l, b, step.brain, q, step.reply.ref.id);
        }
      } else {
        CloseExtends(l, b, q);
      }
    }
  }

  lemma ExtendsItself(s: Store)
    ensures Extends(s, s)
  {
  }

  lemma BindingsExtend(l: Ledger, b: Brain, b': Brain)
    requires forall k <- b.bindings :: k in b'.bindings && b'.bindings[k] == b.bindings[k]
    ensures Extends(Store(l, b), Store(l, b'))
  {
  }

  lemma ConfirmExtends(l: Ledger, b: Brain, b': Brain, q: ResolveRequest, ref: FactId)
    requires q.review < |l.reviews| && l.reviews[q.review].origin in l.events
    requires forall k <- b.bindings :: k in b'.bindings && b'.bindings[k] == b.bindings[k]
    ensures Extends(Store(l, b), Store(CommitConfirm(l, q.review, q.idem, q.action, ResolvedPayload(l, q), ref,
                                                     if q.action == Supersession then q.target else None), b'))
  {
    hide ConfirmedRows, ConfirmedTombstones, Redirected, MarkStale, ResolvedPayload, BindingOf;
  }

  lemma CloseExtends(l: Ledger, b: Brain, q: ResolveRequest)
    requires q.review < |l.reviews| && l.reviews[q.review].origin in l.events
    ensures Extends(Store(l, b), Store(CommitClose(l, q.review, q.idem, q.action), b))
  {
  }

  lemma ConfirmBrainExtends(l: Ledger, b: Brain, q: ResolveRequest, commits: nat)
    requires ResolveStop(l, q).None? && commits > 0
    ensures forall k <- b.bindings ::
      k in ConfirmBrain(l, b, q, commits).brain.bindings && ConfirmBrain(l, b, q, commits).brain.bindings[k] == b.bindings[k]
  {
  }

  lemma RevertExtends(s: Store, q: RevertRequest, commits: nat)
    ensures Extends(s, RevertOp(s, q, commits).store)
  {
    hide Extends, RevertStop, RevertBrain, RevertRefusal, CommitRevert;
    ExtendsItself(s);
    if RevertStop(s.ledger, q).None? {
      var step := RevertBrain(s.brain, q, s.ledger.ops[q.opId]);
      RevertBrainBindings(s.brain, q, s.ledger.ops[q.opId]);
      BindingsExtend(s.ledger, s.brain, step.brain);
      UndoExtends(s.ledger, s.brain, step.brain, q);
    }
  }

  lemma RevertBrainBindings(b: Brain, q: RevertRequest, o: Op)
    ensures RevertBrain(b, q, o).brain.bindings == b.bindings
  {
  }

  lemma UndoExtends(l: Ledger, b: Brain, b': Brain, q: RevertRequest)
    requires q.review < |l.reviews| && l.reviews[q.review].origin in l.events && q.opId < |l.ops| && b'.bindings == b.bindings
    ensures Extends(Store(l, b), Store(CommitRevert(l, q.review, q.idem, q.opId), b'))
  {
    hide RevertedRows, RevertedTombstones, RevertedCrystals;
  }

  lemma ForgetExtends(s: Store, who: Principal, ref: FactId, commits: nat)
    ensures Extends(s, Forget(s, who, ref, commits).store)
  {
  }

  lemma RebuildExtends(s: Store, who: Principal, scope: Scope, ns: string, idem: string, commits: nat)
    ensures Extends(s, RebuildCrystal(s, who, scope, ns, idem, commits).store)
  {
  }

  lemma EventUpdateExtends(s: Store, s': Store, key: EventKey)
    requires key in s.ledger.events && key in s'.ledger.events && SameSubmission(s.ledger.events[key], s'.ledger.events[key])
    requires forall k <- s.ledger.events | k != key :: k in s'.ledger.events && s'.ledger.events[k] == s.ledger.events[k]
    requires forall k <- s.ledger.receipts :: k in s'.ledger.receipts && s'.ledger.receipts[k] == s.ledger.receipts[k]
    requires forall k <- s.brain.bindings :: k in s'.brain.bindings && s'.brain.bindings[k] == s.brain.bindings[k]
    ensures Extends(s, s')
  {
  }

  lemma WorkerCommitsExtend(l: Ledger, b: Brain, b': Brain, key: EventKey, ref: FactId, found: Option<FactId>)
    requires key in l.events && forall k <- b.bindings :: k in b'.bindings && b'.bindings[k] == b.bindings[k]
    ensures Extends(Store(l, b), Store(CommitApplied(l, key, ref), b'))
    ensures Extends(Store(l, b), Store(CommitReview(l, key), b'))
    ensures Extends(Store(l, b), Store(CommitDuplicate(l, key, found), b'))
  {
    hide Extends, CommitApplied, CommitReview, CommitDuplicate;
    ApplyingExtends(l, b, b', key, ref);
    ReviewExtends(l, b, b', key);
    DuplicateExtends(l, b, b', key, found);
  }

  lemma ApplyingExtends(l: Ledger, b: Brain, b': Brain, key: EventKey, ref: FactId)
    requires key in l.events && forall k <- b.bindings :: k in b'.bindings && b'.bindings[k] == b.bindings[k]
    ensures Extends(Store(l, b), Store(CommitApplied(l, key, ref), b'))
  {
    hide Extends, RegisterExternal, MarkStale, BindingOf;
    EventUpdateExtends(Store(l, b), Store(CommitApplied(l, key, ref), b'), key);
  }

  lemma ReviewExtends(l: Ledger, b: Brain, b': Brain, key: EventKey)
    requires key in l.events && forall k <- b.bindings :: k in b'.bindings && b'.bindings[k] == b.bindings[k]
    ensures Extends(Store(l, b), Store(CommitReview(l, key), b'))
  {
    hide Extends, RegisterExternal;
    EventUpdateExtends(Store(l, b), Store(CommitReview(l, key), b'), key);
  }

  lemma DuplicateExtends(l: Ledger, b: Brain, b': Brain, key: EventKey, found: Option<FactId>)
    requires key in l.events && forall k <- b.bindings :: k in b'.bindings && b'.bindings[k] == b.bindings[k]
    ensures Extends(Store(l, b), Store(CommitDuplicate(l, key, found), b'))
  {
    hide Extends;
    EventUpdateExtends(Store(l, b), Store(CommitDuplicate(l, key, found), b'), key);
  }

  lemma WorkerFailuresExtend(l: Ledger, b: Brain, b': Brain, key: EventKey)
    requires Due(l, key) && forall k <- b.bindings :: k in b'.bindings && b'.bindings[k] == b.bindings[k]
    ensures Extends(Store(l, b), Store(CommitRetry(l, key), b'))
    ensures Extends(Store(l, b), Store(CommitDeadLetter(l, key), b'))
    ensures Extends(Store(l, b), Store(l, b'))
  {
    hide Extends;
    EventUpdateExtends(Store(l, b), Store(CommitRetry(l, key), b'), key);
    EventUpdateExtends(Store(l, b), Store(CommitDeadLetter(l, key), b'), key);
    EventUpdateExtends(Store(l, b), Store(l, b'), key);
  }

  lemma WorkerExtends(s: Store, key: EventKey, luck: Luck, commits: nat)
    requires Due(s.ledger, key)
    ensures Extends(s, WorkerPass(s, key, luck, commits).store)
  {
    hide Extends, CommitApplied, CommitReview, CommitDuplicate, CommitRetry, CommitDeadLetter;
    var l, e := s.ledger, s.ledger.events[key];
    var step := Upsert(s.brain, WorkerKey(key), e.tenant, e.payload.content);
    var x := ExternalKeyOf(e, if e.payload.provenance.Some? then e.payload.provenance.value else Provenance("", "", ""));
    var found := if x in l.externals then l.externals[x].backendRef else None;
    WorkerCommitsExtend(l, s.brain, s.brain, key, 0, found);
    WorkerCommitsExtend(l, s.brain, step.brain, key, if step.reply.Ok? then step.reply.ref.id else 0, found);
    WorkerFailuresExtend(l, s.brain, s.brain, key);
    WorkerFailuresExtend(l, s.brain, step.brain, key);
  }

  lemma SubmitExtends(s: Store, who: Principal, id: string, scope: Scope, payload: Payload)
    ensures Extends(s, Submit(s, who, id, scope, payload).store)
  {
  }

  lemma ServeExtends(s: Store, r: Request, commits: nat)
    ensures Extends(s, Serve(s, r, commits))
  {
    match r
    case Submitting(who, id, scope, payload) => SubmitExtends(s, who, id, scope, payload);
    case Working(key, luck) => if Due(s.ledger, key) { WorkerExtends(s, key, luck, commits); }
    case Resolving(q) => ResolveExtends(s, q, commits);
    case Reverting(q) => RevertExtends(s, q, commits);
    case Forgetting(who, ref) => ForgetExtends(s, who, ref, commits);
    case Rebuilding(who, scope, ns, idem) => RebuildExtends(s, who, scope, ns, idem, commits);
  }

  lemma {:induction false} RunExtends(s: Store, attempts: seq<Attempt>)
    ensures Extends(s, Run(s, attempts))
    decreases |attempts|
  {
    if attempts != [] {
      ServeExtends(s, attempts[0].request, attempts[0].commits);
      RunExtends(Serve(s, attempts[0].request, attempts[0].commits), attempts[1..]);
    }
  }

  /** However often an event is resubmitted, and whatever runs or crashes in between, every answer after the
      first settled one carries that same receipt, and the missing-receipt failure is unreachable. */
  lemma SettledAnswerIsFixed(before: seq<Attempt>, between: seq<Attempt>, who: Principal, id: string, scope: Scope,
                             payload: Payload)
    ensures var s := Run(EMPTY, before);
      && Submit(s, who, id, scope, payload).reply != Rejecting(ReceiptMissing)
      && (Submit(s, who, id, scope, payload).reply.Fixed? ==>
            Submit(Run(s, between), who, id, scope, payload).reply == Submit(s, who, id, scope, payload).reply)
  {
    EveryRunKeepsTheLedger(before);
    var s := Run(EMPTY, before);
    RunExtends(s, between);
  }

  /** Two facts are never created under the same key: the worker makes at most one fact per event, and a
      confirm request at most one, over any run and any number of crashes. */
  lemma OneFactPerKey(attempts: seq<Attempt>, f: FactId, g: FactId)
    requires f < |Run(EMPTY, attempts).brain.facts| && g < |Run(EMPTY, attempts).brain.facts|
    requires Run(EMPTY, attempts).brain.facts[f].session == Run(EMPTY, attempts).brain.facts[g].session
    ensures f == g
  {
    EveryRunKeepsTheLedger(attempts);
  }
}
