/** What the gateway's answers to a submission and a worker pass amount to on the tables, in every state a run reaches.
    The outcomes are written on the fields of events, receipts, candidates, rows and facts. */
module WorkerOutcomes {
  import opened Names
  import opened GBrain
  import opened Ledger
  import opened Lifecycle
  import opened LedgerInvariants
  import opened AllRuns
  import opened StoreAgreement
  import opened RunTheorems
  import opened LedgerCommits
  import opened EventTrails
  import opened StoredTexts

  lemma ReachedIsSound(s: Store)
    requires Reached(s)
    ensures StoreOk(s) && Traced(s.ledger)
    ensures forall f | 0 <= f < |s.brain.facts| && s.brain.facts[f].session.WorkerKey? ::
      var k := s.brain.facts[f].session.origin;
      k in s.ledger.events && s.brain.facts[f].content == s.ledger.events[k].payload.content && StoredUnreviewed(s.ledger.events[k].payload)
  {
    hide StoreOk, Traced, Run, TextSent;
    var attempts :| Run(EMPTY, attempts) == s;
    EveryRunIsTraced(attempts);
    forall f | 0 <= f < |s.brain.facts| && s.brain.facts[f].session.WorkerKey?
      ensures TextSent(s.ledger, s.brain.facts[f], attempts)
    {
      EveryTextWasSent(attempts, f);
    }
    WorkerTexts(s, attempts);
  }

  lemma WorkerTexts(s: Store, attempts: seq<Attempt>)
    requires forall f | 0 <= f < |s.brain.facts| && s.brain.facts[f].session.WorkerKey? :: TextSent(s.ledger, s.brain.facts[f], attempts)
    ensures forall f | 0 <= f < |s.brain.facts| && s.brain.facts[f].session.WorkerKey? ::
      var k := s.brain.facts[f].session.origin;
      k in s.ledger.events && s.brain.facts[f].content == s.ledger.events[k].payload.content && StoredUnreviewed(s.ledger.events[k].payload)
  {
  }

  // ---- records

  /** Both events were captured from the same revision of the same record, for the same owner and workspace. */
  predicate SameRecord(e: Event, e': Event) {
    && e.payload.provenance.Some? && e'.payload.provenance == e.payload.provenance
    && e'.tenant == e.tenant && e'.user == e.user && e'.workspace == e.workspace
  }

  /** Another event of the same record has been applied. */
  ghost predicate Captured(l: Ledger, key: EventKey)
    requires key in l.events
  {
    exists j <- l.events :: j != key && l.events[j].status == Applied && SameRecord(l.events[key], l.events[j])
  }

  lemma KnownExactly(l: Ledger, key: EventKey)
    requires RecordsTraced(l) && RecordsComplete(l) && Due(l, key)
    ensures RecordKnown(l, l.events[key]) <==> Captured(l, key)
  {
    if RecordKnown(l, l.events[key]) {
      var j := l.externals[ExternalKeyOf(l.events[key], l.events[key].payload.provenance.value)].origin;
      assert j != key && l.events[j].status == Applied && SameRecord(l.events[key], l.events[j]);
    }
    if Captured(l, key) {
      var j :| j in l.events && j != key && l.events[j].status == Applied && SameRecord(l.events[key], l.events[j]);
      assert ExternalKeyOf(l.events[j], l.events[j].payload.provenance.value) in l.externals;
    }
  }

  /** The one event of a record that was not a duplicate leads where the record does. */
  lemma KnownLeads(l: Ledger, key: EventKey, j: EventKey)
    requires RecordsTraced(l) && RecordsComplete(l) && Due(l, key) && RecordKnown(l, l.events[key])
    requires j in l.events && l.events[j].status == Applied && SameRecord(l.events[key], l.events[j])
    requires j in l.receipts && l.receipts[j].result != SourceDuplicate
    ensures l.externals[ExternalKeyOf(l.events[key], l.events[key].payload.provenance.value)].backendRef == l.events[j].backendRef
  {
  }

  // ---- the outcomes of a worker pass

  /** One event changes, and nothing else in either store. */
  predicate OnlyEventBecomes(s: Store, s': Store, key: EventKey, e: Event) {
    s'.brain == s.brain && s'.ledger == s.ledger.(events := s.ledger.events[key := e])
  }

  /** The event is applied with this result and its first receipt is written; the other events and receipts stay. */
  predicate SettledWith(l: Ledger, l': Ledger, key: EventKey, result: EventResult, ref: Option<FactId>)
    requires key in l.events
  {
    var rev := l.revision + 1;
    && l'.events == l.events[key := l.events[key].(status := Applied, result := Some(result), backendRef := ref, revision := Some(rev))]
    && key !in l.receipts && l'.receipts == l.receipts[key := Receipt(rev, result, ref, rev)] && l'.revision == rev
  }

  predicate SameReviews(l: Ledger, l': Ledger) {
    l'.reviews == l.reviews && l'.ops == l.ops && l'.opByKey == l.opByKey && l'.tombstones == l.tombstones
  }

  /** Settled as a duplicate: it leads where the record's first event leads, and nothing is stored. */
  ghost predicate SettledDuplicate(s: Store, s': Store, key: EventKey)
    requires key in s.ledger.events
  {
    var l, l' := s.ledger, s'.ledger;
    && s'.brain == s.brain && SameReviews(l, l') && l'.rows == l.rows && key in l'.events
    && SettledWith(l, l', key, SourceDuplicate, l'.events[key].backendRef)
    && forall j <- l.events | l.events[j].status == Applied && SameRecord(l.events[key], l.events[j])
                              && j in l.receipts && l.receipts[j].result != SourceDuplicate ::
         l'.events[key].backendRef == l.events[j].backendRef
  }

  /** Put up for review: one open candidate more, and nothing is stored. */
  predicate BecomesCandidate(s: Store, s': Store, key: EventKey)
    requires key in s.ledger.events
  {
    var l, l' := s.ledger, s'.ledger;
    && s'.brain == s.brain && l'.rows == l.rows && l'.ops == l.ops && l'.opByKey == l.opByKey && l'.tombstones == l.tombstones
    && SettledWith(l, l', key, CandidateCreated, None)
    && l'.reviews == l.reviews + [Review(key, Open, 1, None)]
  }

  /** Stored: GBrain holds the event's own text under its tenant, and an active row names the fact. */
  predicate BecomesMemory(s: Store, s': Store, key: EventKey)
    requires key in s.ledger.events
  {
    var l, l', b, b', e := s.ledger, s'.ledger, s.brain, s'.brain, s.ledger.events[key];
    && SameReviews(l, l') && |b.facts| <= |b'.facts| <= |b.facts| + 1 && (forall f | 0 <= f < |b.facts| :: b'.facts[f] == b.facts[f])
    && key in l'.events && l'.events[key].backendRef.Some?
    && var ref := l'.events[key].backendRef.value;
    && ref < |b'.facts| && b'.facts[ref] == Fact(e.tenant, e.payload.content, WorkerKey(key), false, None)
    && SettledWith(l, l', key, CandidateConfirmed, Some(ref))
    && ref !in l.rows && ref in l'.rows && l'.rows == l.rows[ref := l'.rows[ref]]
    && var row := l'.rows[ref];
    && row.origin == key && row.keys == e.payload.keys && row.status == Active && row.supersededBy.None? && !row.pinned && !row.instruction
    && row.binding == HomeOf(key, e, e.payload)
    && OnlyStale(l.crystals, l'.crystals, {row.binding})
  }

  lemma StoredByWorker(s: Store, key: EventKey, ref: FactId, b': Brain)
    requires StoreOk(s) && Ready(s.ledger, Applying(key, ref)) && key !in s.ledger.receipts && !s.ledger.events[key].payload.instruction
    requires |s.brain.facts| <= |b'.facts| <= |s.brain.facts| + 1 && forall f | 0 <= f < |s.brain.facts| :: b'.facts[f] == s.brain.facts[f]
    requires ref < |b'.facts|
    requires b'.facts[ref] == Fact(s.ledger.events[key].tenant, s.ledger.events[key].payload.content, WorkerKey(key), false, None)
    ensures BecomesMemory(s, Store(CommitApplied(s.ledger, key, ref), b'), key)
  {
    hide StoreOk, RegisterExternal;
  }

  /** The fact a pass finds or makes for a due event holds exactly the event's text, live and without a row. */
  lemma WorkerFact(s: Store, key: EventKey)
    requires StoreOk(s) && Due(s.ledger, key)
    requires forall f | 0 <= f < |s.brain.facts| && s.brain.facts[f].session.WorkerKey? ::
      var k := s.brain.facts[f].session.origin;
      k in s.ledger.events && s.brain.facts[f].content == s.ledger.events[k].payload.content && StoredUnreviewed(s.ledger.events[k].payload)
    ensures var e := s.ledger.events[key]; var step := Upsert(s.brain, WorkerKey(key), e.tenant, e.payload.content);
      && step.reply.Ok? && step.reply.ref.id !in s.ledger.rows && key !in s.ledger.rowByOrigin
      && |s.brain.facts| <= |step.brain.facts| <= |s.brain.facts| + 1 && step.reply.ref.id < |step.brain.facts|
      && (forall f | 0 <= f < |s.brain.facts| :: step.brain.facts[f] == s.brain.facts[f])
      && step.brain.facts[step.reply.ref.id] == Fact(e.tenant, e.payload.content, WorkerKey(key), false, None)
  {
    hide LedgerOk, EventsMatch, LogsAlternate, EffectsMatch, TombstonesMatch, CrystalsFresh, RevisionsBounded;
    LedgerParts(s.ledger);
    WorkerIsReady(s.ledger, s.brain, key);
    hide OriginsMatch;
    if WorkerKey(key) in s.brain.bindings { assert KeyPlaced(s.ledger, s.brain, WorkerKey(key)); }
  }

  /** What a complete worker pass makes of a due event, exactly: an unreadable event is a dead letter; an event of a
      known record is a duplicate; instruction-like text, or text the user did not give explicitly, becomes a
      candidate; and only then is GBrain asked, which stores the text, turns it down for good or is not there. */
  lemma PassSettles(s: Store, key: EventKey, luck: Luck, n: nat)
    requires Reached(s) && Due(s.ledger, key) && n >= 2
    ensures var s', e := Serve(s, Working(key, luck), n), s.ledger.events[key];
      if luck == Unreadable then OnlyEventBecomes(s, s', key, e.(status := DeadLetter))
      else if Captured(s.ledger, key) then SettledDuplicate(s, s', key)
      else if e.payload.instruction || !e.payload.userExplicit then BecomesCandidate(s, s', key)
      else match luck
        case Unreadable => true
        case TextRejected => OnlyEventBecomes(s, s', key, e.(status := DeadLetter))
        case BackendDown => OnlyEventBecomes(s, s', key, e.(status := Retryable, retries := e.retries + 1))
        case Decrypts => BecomesMemory(s, s', key)
  {
    hide Reached, StoreOk, Traced, Captured, BecomesMemory, SettledDuplicate, BecomesCandidate, OnlyEventBecomes, Upsert, CommitApplied, CommitReview,
      CommitDuplicate, CommitRetry, CommitDeadLetter, EventsMatch, RecordKnown;
    var l, e := s.ledger, s.ledger.events[key];
    ReachedIsSound(s);
    StoreEvents(s);
    DueIsFresh(l, key);
    SoundRecords(l, key);
    WorkerFact(s, key);
    PassEnds(s, key, luck, n);
    UnsettledEnds(s, key);
    if luck != Unreadable && RecordKnown(l, e) {
      DuplicateEnds(s, key);
    } else if luck == Decrypts && StoredUnreviewed(e.payload) {
      var step := Upsert(s.brain, WorkerKey(key), e.tenant, e.payload.content);
      StoredByWorker(s, key, step.reply.ref.id, step.brain);
    } else {
      CandidateEnds(s, key);
    }
  }

  /** The branches of a pass that gets through both commits, when GBrain answers and the row is not refused. */
  lemma PassEnds(s: Store, key: EventKey, luck: Luck, n: nat)
    requires Due(s.ledger, key) && n >= 2
    requires var e := s.ledger.events[key]; var step := Upsert(s.brain, WorkerKey(key), e.tenant, e.payload.content);
      step.reply.Ok? && key !in s.ledger.rowByOrigin
    ensures var l, e, s' := s.ledger, s.ledger.events[key], Serve(s, Working(key, luck), n);
      var step := Upsert(s.brain, WorkerKey(key), e.tenant, e.payload.content);
      if luck == Unreadable then s' == s.(ledger := CommitDeadLetter(l, key))
      else if RecordKnown(l, e) then
        s' == s.(ledger := CommitDuplicate(l, key, l.externals[ExternalKeyOf(e, e.payload.provenance.value)].backendRef))
      else if e.payload.instruction || !e.payload.userExplicit then s' == s.(ledger := CommitReview(l, key))
      else match luck
        case Unreadable => true
        case TextRejected => s' == s.(ledger := CommitDeadLetter(l, key))
        case BackendDown => s' == s.(ledger := CommitRetry(l, key))
        case Decrypts => s' == Store(CommitApplied(l, key, step.reply.ref.id), step.brain)
  {
    hide Upsert, CommitApplied, CommitReview, CommitDuplicate, CommitRetry, CommitDeadLetter;
  }

  lemma SoundRecords(l: Ledger, key: EventKey)
    requires Traced(l) && Due(l, key)
    ensures RecordKnown(l, l.events[key]) <==> Captured(l, key)
  {
    hide RecordsTraced, RecordsComplete, RowsTraced, RefsOwned, ResultsTold, Captured, RecordKnown;
    KnownExactly(l, key);
  }

  lemma UnsettledEnds(s: Store, key: EventKey)
    requires Due(s.ledger, key)
    ensures var e := s.ledger.events[key];
      && OnlyEventBecomes(s, s.(ledger := CommitDeadLetter(s.ledger, key)), key, e.(status := DeadLetter))
      && OnlyEventBecomes(s, s.(ledger := CommitRetry(s.ledger, key)), key, e.(status := Retryable, retries := e.retries + 1))
  {
  }

  lemma DuplicateEnds(s: Store, key: EventKey)
    requires Traced(s.ledger) && Due(s.ledger, key) && RecordKnown(s.ledger, s.ledger.events[key]) && key !in s.ledger.receipts
    ensures var l, e := s.ledger, s.ledger.events[key];
      SettledDuplicate(s, s.(ledger := CommitDuplicate(l, key, l.externals[ExternalKeyOf(e, e.payload.provenance.value)].backendRef)), key)
  {
    hide RecordsTraced, RecordsComplete, RowsTraced, RefsOwned, ResultsTold;
    var l, e := s.ledger, s.ledger.events[key];
    forall j <- l.events | l.events[j].status == Applied && SameRecord(e, l.events[j]) && j in l.receipts && l.receipts[j].result != SourceDuplicate
      ensures l.externals[ExternalKeyOf(e, e.payload.provenance.value)].backendRef == l.events[j].backendRef
    {
      KnownLeads(l, key, j);
    }
  }

  lemma CandidateEnds(s: Store, key: EventKey)
    requires Due(s.ledger, key) && key !in s.ledger.receipts && s.ledger.events[key].backendRef.None?
    ensures BecomesCandidate(s, s.(ledger := CommitReview(s.ledger, key)), key)
  {
    hide RegisterExternal;
  }

  lemma StoreEvents(s: Store)
    requires StoreOk(s)
    ensures EventsMatch(s.ledger)
  {
    hide EventsMatch;
  }

  // ---- submissions

  /** A submission is accepted exactly when its text is not sensitive and its id is new to the device, and it is then kept
      for good: whatever runs or crashes afterwards, the event is the submitter's, in that workspace and scope, with the
      text as sent. Any other submission leaves both stores as they were. */
  lemma SubmissionIsKept(s: Store, who: Principal, id: string, scope: Scope, payload: Payload, attempts: seq<Attempt>)
    requires Reached(s)
    ensures var key, out := EventKey(who.device, id), Submit(s, who, id, scope, payload);
      && (out.reply == Accepted <==> !payload.sensitive && key !in s.ledger.events)
      && (out.reply != Accepted ==> out.store == s)
      && (out.reply == Accepted ==>
            && key in out.store.ledger.events && out.store.ledger.events[key].status == Pending && out.store.brain == s.brain
            && out.store.ledger == s.ledger.(events := s.ledger.events[key := out.store.ledger.events[key]])
            && key in Run(out.store, attempts).ledger.events
            && var e := Run(out.store, attempts).ledger.events[key];
            && e.tenant == who.tenant && e.user == who.user && e.agent == who.agent && e.workspace == who.workspace
            && e.scope == scope && e.payload == payload)
  {
    hide Reached, StoreOk, Traced, Run;
    ReachedIsSound(s);
    StoreEvents(s);
    SubmitKeepsStore(s, who, id, scope, payload);
    RunKeepsSubmissions(Submit(s, who, id, scope, payload).store, attempts);
  }

  /** A second submission under the same id is answered from the first only when it is the same submission; any other
      text, workspace or scope is turned away. */
  lemma ResubmissionIsCompared(s: Store, who: Principal, id: string, scope: Scope, payload: Payload)
    requires Reached(s) && !payload.sensitive && EventKey(who.device, id) in s.ledger.events
    ensures var key := EventKey(who.device, id); var e, reply := s.ledger.events[key], Submit(s, who, id, scope, payload).reply;
      if e.payload == payload && e.workspace == who.workspace && e.scope == scope then
        if e.status == Applied then key in s.ledger.receipts && reply == Fixed(s.ledger.receipts[key]) else reply == InProgress(e.status)
      else reply == Rejecting(EventIdReuse)
  {
    hide Reached, StoreOk, Traced;
    ReachedIsSound(s);
    StoreEvents(s);
  }
}
