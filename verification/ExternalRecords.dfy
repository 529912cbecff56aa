/** A record of an external memory leads to at most one memory (src/agent_memory_gateway/reconcile.py), over every run.
    Events of one revision of one record, in one workspace of one owner, are compared by their own fields. */
module ExternalRecords {
  import opened Names
  import opened GBrain
  import opened Ledger
  import opened Lifecycle
  import opened LedgerInvariants
  import opened AllRuns
  import opened StoreAgreement
  import opened LedgerCommits
  import opened RunTheorems
  import opened CreationRetry
  import opened StoredTexts
  import opened EventTrails
  import opened WorkerOutcomes

  // ---- one event of a record goes on, the others are duplicates

  lemma OnlyOneGoesOn(l: Ledger, j: EventKey, k: EventKey)
    requires RecordsTraced(l) && RecordsComplete(l) && j in l.events && k in l.events && j != k
    requires l.events[j].status == Applied && l.events[k].status == Applied && SameRecord(l.events[j], l.events[k])
    ensures j in l.receipts && k in l.receipts
    ensures l.receipts[j].result == SourceDuplicate || l.receipts[k].result == SourceDuplicate
  {
    assert ExternalKeyOf(l.events[j], l.events[j].payload.provenance.value) == ExternalKeyOf(l.events[k], l.events[k].payload.provenance.value);
  }

  /** The event of a record that was not settled as a duplicate. */
  ghost predicate FirstOf(l: Ledger, k: EventKey, j: EventKey)
    requires k in l.events
  {
    && j in l.events && l.events[j].status == Applied && SameRecord(l.events[k], l.events[j])
    && j in l.receipts && l.receipts[j].result != SourceDuplicate
  }

  /** Over every run, of the applied events of one record exactly one was not settled as a duplicate. */
  lemma ExactlyOneFirst(attempts: seq<Attempt>, k: EventKey)
    requires var l := Run(EMPTY, attempts).ledger; k in l.events && l.events[k].status == Applied && l.events[k].payload.provenance.Some?
    ensures exists j :: FirstOf(Run(EMPTY, attempts).ledger, k, j)
    ensures forall i, j | FirstOf(Run(EMPTY, attempts).ledger, k, i) && FirstOf(Run(EMPTY, attempts).ledger, k, j) :: i == j
  {
    hide Run, StoreOk, RecordsTraced, RecordsComplete, RowsTraced, RefsOwned, ResultsTold;
    var l := Run(EMPTY, attempts).ledger;
    EveryRunIsTraced(attempts);
    RegisteredIsFirst(l, k);
    forall i, j | FirstOf(l, k, i) && FirstOf(l, k, j) ensures i == j {
      if i != j { OnlyOneGoesOn(l, i, j); }
    }
  }

  lemma RegisteredIsFirst(l: Ledger, k: EventKey)
    requires RecordsTraced(l) && RecordsComplete(l) && k in l.events && l.events[k].status == Applied && l.events[k].payload.provenance.Some?
    ensures exists j :: FirstOf(l, k, j)
  {
    assert FirstOf(l, k, l.externals[ExternalKeyOf(l.events[k], l.events[k].payload.provenance.value)].origin);
  }

  /** Over every run, at most one lifecycle row and at most one review candidate come from the events of one record. */
  lemma OneMemoryPerRecord(attempts: seq<Attempt>, j: EventKey, k: EventKey)
    requires var l := Run(EMPTY, attempts).ledger; j in l.events && k in l.events && SameRecord(l.events[j], l.events[k]) && j != k
    ensures var l := Run(EMPTY, attempts).ledger;
      && (forall r <- l.rows, q <- l.rows :: l.rows[r].origin == j ==> l.rows[q].origin != k)
      && (forall v, w | 0 <= v < |l.reviews| && 0 <= w < |l.reviews| :: l.reviews[v].origin == j ==> l.reviews[w].origin != k)
      && (forall r <- l.rows, v | 0 <= v < |l.reviews| :: l.rows[r].origin == j ==> l.reviews[v].origin != k)
  {
    hide Run, LedgerOk, KeysMatch, RecordsTraced, RecordsComplete, RowsTraced, RefsOwned, ResultsTold, SameRecord;
    hide EventsMatch, OriginsMatch, TombstonesMatch, CrystalsFresh, LogsAlternate, EffectsMatch, RevisionsBounded;
    var l := Run(EMPTY, attempts).ledger;
    EveryRunIsTraced(attempts);
    LedgerParts(l);
    forall r <- l.rows ensures GoesOn(l, l.rows[r].origin) { RowGoesOn(l, r); }
    forall v: nat | v < |l.reviews| ensures GoesOn(l, l.reviews[v].origin) { CandidateGoesOn(l, v); }
    if GoesOn(l, j) && GoesOn(l, k) {
      OnlyOneGoesOn(l, j, k);
      assert false;
    }
  }

  /** Applied, and not as a duplicate. */
  ghost predicate GoesOn(l: Ledger, k: EventKey) {
    && k in l.events && l.events[k].status == Applied && k in l.receipts && l.receipts[k].result != SourceDuplicate
  }

  lemma RowGoesOn(l: Ledger, r: FactId)
    requires EventsMatch(l) && OriginsMatch(l) && ResultsTold(l) && r in l.rows
    ensures GoesOn(l, l.rows[r].origin)
  {
  }

  lemma CandidateGoesOn(l: Ledger, v: nat)
    requires EventsMatch(l) && ResultsTold(l) && v < |l.reviews|
    ensures GoesOn(l, l.reviews[v].origin)
  {
    assert Reviewed(l.events, l.reviews[v].origin);
  }

  /** A later event of a known record, once a worker that can read it gets to commit, is a duplicate that leads where the
      first one leads at that moment; GBrain, the rows and the candidates are as before. */
  lemma LaterIsDuplicate(attempts: seq<Attempt>, k: EventKey, j: EventKey, luck: Luck, n: nat)
    requires var l := Run(EMPTY, attempts).ledger; Due(l, k) && FirstOf(l, k, j)
    requires luck != Unreadable && n > 0
    ensures var s := Run(EMPTY, attempts); var s' := Run(EMPTY, attempts + [Attempt(Working(k, luck), n)]);
      && s'.brain == s.brain && s'.ledger.rows == s.ledger.rows && s'.ledger.reviews == s.ledger.reviews
      && k in s'.ledger.events && s'.ledger.events[k].status == Applied && s'.ledger.events[k].backendRef == s.ledger.events[j].backendRef
      && k in s'.ledger.receipts && s'.ledger.receipts[k].result == SourceDuplicate
      && s'.ledger.receipts[k].backendRef == s.ledger.events[j].backendRef
  {
    hide Run, StoreOk, Traced, RegisterExternal;
    var s := Run(EMPTY, attempts);
    RunThen(EMPTY, attempts, Attempt(Working(k, luck), n));
    assert Reached(s);
    ReachedIsSound(s);
    StoreEvents(s);
    DueIsFresh(s.ledger, k);
    assert Captured(s.ledger, k) by { assert SameRecord(s.ledger.events[k], s.ledger.events[j]); }
    SoundRecords(s.ledger, k);
    DuplicateEnds(s, k);
  }

  lemma {:induction false} RunThen(s: Store, attempts: seq<Attempt>, a: Attempt)
    ensures Run(s, attempts + [a]) == Serve(Run(s, attempts), a.request, a.commits)
    decreases |attempts|
  {
    hide Serve;
    if attempts == [] {
      assert attempts + [a] == [a] && [a][1..] == [];
      assert Run(Serve(s, a.request, a.commits), []) == Serve(s, a.request, a.commits);
    } else {
      RunThen(Serve(s, attempts[0].request, attempts[0].commits), attempts[1..], a);
      assert (attempts + [a])[1..] == attempts[1..] + [a];
    }
  }

  // ---- facts in GBrain

  /** GBrain holds a fact that the worker made for the event. */
  ghost predicate HasFact(b: Brain, k: EventKey) {
    exists f | 0 <= f < |b.facts| :: b.facts[f].session == WorkerKey(k)
  }

  /** No two events of one record have a fact each. */
  ghost predicate OneFactPerRecord(s: Store) {
    forall j <- s.ledger.events, k <- s.ledger.events | j != k && HasFact(s.brain, j) && HasFact(s.brain, k) ::
      !SameRecord(s.ledger.events[j], s.ledger.events[k])
  }

  /** The worker turns to an explicit event of a record that no applied event names yet, although another event of the
      record has its fact: the pass over that one crashed before the ledger heard of it. */
  ghost predicate MakesSecondFact(s: Store, r: Request, n: nat) {
    && r.Working? && r.luck == Decrypts && n > 0 && Due(s.ledger, r.key)
    && StoredUnreviewed(s.ledger.events[r.key].payload) && !Captured(s.ledger, r.key)
    && exists j <- s.ledger.events :: j != r.key && SameRecord(s.ledger.events[r.key], s.ledger.events[j]) && HasFact(s.brain, j)
  }

  /** Where a worker fact of a later store comes from. */
  lemma FactBefore(s: Store, r: Request, n: nat, k: EventKey)
    requires StoreOk(s) && HasFact(Serve(s, r, n).brain, k)
    ensures k in s.ledger.events
    ensures HasFact(s.brain, k) || (r.Working? && r.key == k && r.luck == Decrypts && n > 0 && Due(s.ledger, k)
                                    && StoredUnreviewed(s.ledger.events[k].payload) && !RecordKnown(s.ledger, s.ledger.events[k]))
  {
    hide Serve, LedgerOk, KeyPlaced;
    ServeTexts(s, r, n);
    ServePlants(s, r, n);
    var b' := Serve(s, r, n).brain;
    var f :| 0 <= f < |b'.facts| && b'.facts[f].session == WorkerKey(k);
    if f < |s.brain.facts| {
      assert s.brain.facts[f].session == WorkerKey(k);
      assert KeyPlaced(s.ledger, s.brain, WorkerKey(k));
      FactHasEvent(s, k);
    } else {
      NothingAtZero(s, r);
    }
  }

  lemma FactHasEvent(s: Store, k: EventKey)
    requires StoreOk(s) && WorkerKey(k) in s.brain.bindings
    ensures k in s.ledger.events
  {
    hide LedgerOk;
    assert KeyPlaced(s.ledger, s.brain, WorkerKey(k));
  }

  lemma NothingAtZero(s: Store, r: Request)
    ensures Serve(s, r, 0).brain == s.brain
  {
    hide ResolveStop, RevertStop, Sources;
  }

  /** A pass that gets through its GBrain commit leaves the event with a fact. */
  lemma PassMakesFact(s: Store, key: EventKey, n: nat)
    requires StoreOk(s) && Due(s.ledger, key) && n > 0
    requires StoredUnreviewed(s.ledger.events[key].payload) && !RecordKnown(s.ledger, s.ledger.events[key])
    ensures HasFact(Serve(s, Working(key, Decrypts), n).brain, key)
  {
    hide LedgerOk, KeysMatch, Upsert;
    var e := s.ledger.events[key];
    UpsertKeepsKeys(s.ledger, s.brain, WorkerKey(key), e.tenant, e.payload.content);
    var step := Upsert(s.brain, WorkerKey(key), e.tenant, e.payload.content);
    PassCommitsFact(s, key, n);
    BoundHasFact(s.ledger, step.brain, key);
  }

  lemma PassCommitsFact(s: Store, key: EventKey, n: nat)
    requires Due(s.ledger, key) && n > 0
    requires StoredUnreviewed(s.ledger.events[key].payload) && !RecordKnown(s.ledger, s.ledger.events[key])
    ensures var e := s.ledger.events[key]; var step := Upsert(s.brain, WorkerKey(key), e.tenant, e.payload.content);
      step.reply.Ok? ==> Serve(s, Working(key, Decrypts), n).brain == step.brain
  {
    hide CommitApplied, Upsert;
  }

  lemma BoundHasFact(l: Ledger, b: Brain, key: EventKey)
    requires KeysMatch(l, b) && WorkerKey(key) in b.bindings
    ensures HasFact(b, key)
  {
    hide KeyPlaced;
    assert b.facts[b.bindings[WorkerKey(key)]].session == WorkerKey(key);
  }

  /** A request gives a record its second fact exactly when it is such a pass. */
  lemma SecondFactExactly(s: Store, r: Request, n: nat)
    requires Reached(s) && OneFactPerRecord(s)
    ensures OneFactPerRecord(Serve(s, r, n)) <==> !MakesSecondFact(s, r, n)
  {
    hide Reached, StoreOk, Traced, Serve, HasFact, SameRecord, Captured;
    ReachedIsSound(s);
    ServeKeepsSubmissions(s, r, n);
    var s' := Serve(s, r, n);
    if MakesSecondFact(s, r, n) {
      SoundRecords(s.ledger, r.key);
      PassMakesFact(s, r.key, n);
      var j :| j in s.ledger.events && j != r.key && SameRecord(s.ledger.events[r.key], s.ledger.events[j]) && HasFact(s.brain, j);
      FactStays(s, r, n, j);
      SameRecordStays(s.ledger, s'.ledger, r.key, j);
    } else {
      forall j <- s'.ledger.events, k <- s'.ledger.events | j != k && HasFact(s'.brain, j) && HasFact(s'.brain, k)
        ensures !SameRecord(s'.ledger.events[j], s'.ledger.events[k])
      {
        FactBefore(s, r, n, j);
        FactBefore(s, r, n, k);
        SameRecordStays(s.ledger, s'.ledger, j, k);
        if r.Working? && Due(s.ledger, r.key) { SoundRecords(s.ledger, r.key); }
        SameRecordTurns(s.ledger.events[j], s.ledger.events[k]);
      }
    }
  }

  lemma FactStays(s: Store, r: Request, n: nat, k: EventKey)
    requires HasFact(s.brain, k)
    ensures HasFact(Serve(s, r, n).brain, k)
  {
    hide Serve;
    ServeTexts(s, r, n);
    var f :| 0 <= f < |s.brain.facts| && s.brain.facts[f].session == WorkerKey(k);
    assert Serve(s, r, n).brain.facts[f].session == WorkerKey(k);
  }

  lemma SameRecordStays(l: Ledger, l': Ledger, j: EventKey, k: EventKey)
    requires KeepsSubmissions(l, l') && j in l.events && k in l.events
    ensures SameRecord(l'.events[j], l'.events[k]) <==> SameRecord(l.events[j], l.events[k])
  {
  }

  lemma SameRecordTurns(e: Event, e': Event)
    ensures SameRecord(e, e') <==> SameRecord(e', e)
  {
  }

  // ---- runs in which no pass crashes between its two commits

  predicate CrashesBetween(a: Attempt) {
    a.request.Working? && a.commits == 1
  }

  /** The worker's facts belong to applied events. */
  ghost predicate FactsApplied(s: Store) {
    forall k <- s.ledger.events :: HasFact(s.brain, k) ==> s.ledger.events[k].status == Applied
  }

  lemma ServeFactsApplied(s: Store, a: Attempt)
    requires Reached(s) && FactsApplied(s) && !CrashesBetween(a)
    ensures FactsApplied(Serve(s, a.request, a.commits))
  {
    hide Reached, StoreOk, Traced, Serve, HasFact;
    var s', r, n := Serve(s, a.request, a.commits), a.request, a.commits;
    ReachedIsSound(s);
    forall k <- s'.ledger.events | HasFact(s'.brain, k) ensures s'.ledger.events[k].status == Applied {
      FactBefore(s, r, n, k);
      if HasFact(s.brain, k) {
        ServeExtends(s, r, n);
      } else {
        SoundRecords(s.ledger, k);
        PassSettles(s, k, Decrypts, n);
      }
    }
  }

  lemma {:induction false} CrashFreeRun(s: Store, attempts: seq<Attempt>)
    requires Reached(s) && FactsApplied(s) && OneFactPerRecord(s)
    requires forall a <- attempts :: !CrashesBetween(a)
    ensures OneFactPerRecord(Run(s, attempts))
    decreases |attempts|
  {
    hide Reached, Serve, FactsApplied, OneFactPerRecord, MakesSecondFact, CrashesBetween;
    if attempts != [] {
      var a := attempts[0];
      NoSecondFact(s, a.request, a.commits);
      SecondFactExactly(s, a.request, a.commits);
      ServeFactsApplied(s, a);
      ReachedAfter(s, a);
      CrashFreeRun(Serve(s, a.request, a.commits), attempts[1..]);
    }
  }

  lemma NoSecondFact(s: Store, r: Request, n: nat)
    requires FactsApplied(s)
    ensures !MakesSecondFact(s, r, n)
  {
  }

  lemma ReachedAfter(s: Store, a: Attempt)
    requires Reached(s)
    ensures Reached(Serve(s, a.request, a.commits))
  {
    var attempts :| Run(EMPTY, attempts) == s;
    RunThen(EMPTY, attempts, a);
  }

  /** In every run in which no worker pass crashes between its GBrain commit and its ledger commit, the events of one
      record have at most one worker fact between them. */
  lemma CrashFreeRunsStoreOnce(attempts: seq<Attempt>)
    requires forall a <- attempts :: !CrashesBetween(a)
    ensures OneFactPerRecord(Run(EMPTY, attempts))
  {
    assert Run(EMPTY, []) == EMPTY;
    CrashFreeRun(EMPTY, attempts);
  }

  // ---- the exception is real

  const OWNER := Principal("t", "u", "w", "d", "a")
  const NOTE := Payload("blue", None, SemanticKeys(None, None, None), Some(Provenance("mem", "r1", "v1")), true, false, false)
  const FIRST := EventKey("d", "1")
  const SECOND := EventKey("d", "2")

  /** Two submissions of one record, and a pass over the first that crashes after its GBrain commit. */
  const CRASHED: seq<Attempt> :=
    [Attempt(Submitting(OWNER, "1", UserScope, NOTE), 3), Attempt(Submitting(OWNER, "2", UserScope, NOTE), 3), Attempt(Working(FIRST, Decrypts), 1)]

  function Waiting(): Event {
    Event("t", "u", "a", "w", UserScope, NOTE, Pending, None, None, None, 0)
  }

  const BOTH := EMPTY_LEDGER.(events := map[FIRST := Waiting(), SECOND := Waiting()])
  const HALF := Brain([Fact("t", "blue", WorkerKey(FIRST), false, None)], map[WorkerKey(FIRST) := 0], map[], {})

  lemma CrashedRun()
    ensures Run(EMPTY, CRASHED) == Store(BOTH, HALF)
  {
    var s1 := Serve(EMPTY, CRASHED[0].request, 3);
    assert s1 == Store(EMPTY_LEDGER.(events := map[FIRST := Waiting()]), EMPTY_BRAIN);
    var s2 := Serve(s1, CRASHED[1].request, 3);
    assert s2.ledger.events == BOTH.events;
    assert s2 == Store(BOTH, EMPTY_BRAIN);
    CrashedPass();
    RunOfThree(EMPTY, CRASHED);
    hide Serve, Run;
  }

  lemma CrashedPass()
    ensures Serve(Store(BOTH, EMPTY_BRAIN), Working(FIRST, Decrypts), 1) == Store(BOTH, HALF)
  {
    assert Serve(Store(BOTH, EMPTY_BRAIN), Working(FIRST, Decrypts), 1).brain.bindings == HALF.bindings;
  }

  lemma RunOfThree(s: Store, a: seq<Attempt>)
    requires |a| == 3
    ensures Run(s, a) == Serve(Serve(Serve(s, a[0].request, a[0].commits), a[1].request, a[1].commits), a[2].request, a[2].commits)
  {
    hide Serve;
    assert a == [] + [a[0]] + [a[1]] + [a[2]];
    RunThen(s, [], a[0]);
    RunThen(s, [] + [a[0]], a[1]);
    RunThen(s, [] + [a[0]] + [a[1]], a[2]);
  }

  /** After the crash the worker takes up the second event: GBrain then holds the same record twice. */
  lemma CrashStoresTwice()
    ensures OneFactPerRecord(Run(EMPTY, CRASHED))
    ensures !OneFactPerRecord(Run(EMPTY, CRASHED + [Attempt(Working(SECOND, Decrypts), 3)]))
  {
    hide Run;
    CrashedRun();
    RunThen(EMPTY, CRASHED, Attempt(Working(SECOND, Decrypts), 3));
    var s := Store(BOTH, HALF);
    assert Reached(s);
    assert HasFact(HALF, FIRST) by { assert HALF.facts[0].session == WorkerKey(FIRST); }
    assert SameRecord(BOTH.events[SECOND], BOTH.events[FIRST]);
    hide Serve;
    SecondFactExactly(s, Working(SECOND, Decrypts), 3);
  }
}
