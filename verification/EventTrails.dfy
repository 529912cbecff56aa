/** How events, rows and external records stay tied together in every run: which event a row came from, which row an
    event leads to, and which event an external record was captured by. */
module EventTrails {
  import opened Names
  import opened Ledger
  import opened Lifecycle
  import opened LedgerInvariants
  import opened AllRuns
  import opened StoreAgreement
  import opened LedgerCommits

  /** A row is where its source event leads, in that event's workspace and scope. */
  ghost predicate RowsTraced(l: Ledger) {
    forall r <- l.rows ::
      && l.rows[r].origin in l.events && l.events[l.rows[r].origin].backendRef == Some(r)
      && l.rows[r].binding.workspace == l.events[l.rows[r].origin].workspace
      && l.rows[r].binding.scope == l.events[l.rows[r].origin].scope
  }

  /** An event leads only to a row of its own tenant, user and workspace. */
  ghost predicate RefsOwned(l: Ledger) {
    forall k <- l.events | l.events[k].backendRef.Some? ::
      && l.events[k].backendRef.value in l.rows
      && l.rows[l.events[k].backendRef.value].binding.tenant == l.events[k].tenant
      && l.rows[l.events[k].backendRef.value].binding.user == l.events[k].user
      && l.rows[l.events[k].backendRef.value].binding.workspace == l.events[k].workspace
  }

  /** The event was captured from the record the key names. */
  predicate CapturedFrom(e: Event, x: ExternalKey) {
    && e.tenant == x.tenant && e.user == x.user && e.workspace == x.workspace && e.payload.provenance == Some(x.provenance)
  }

  /** A known record names an applied event that was captured from it, was not a duplicate, and leads where the record does. */
  ghost predicate RecordsTraced(l: Ledger) {
    forall x <- l.externals ::
      var k := l.externals[x].origin;
      && k in l.events && l.events[k].status == Applied && CapturedFrom(l.events[k], x)
      && l.externals[x].backendRef == l.events[k].backendRef
      && k in l.receipts && l.receipts[k].result != SourceDuplicate
  }

  /** The record of every applied event is known, and names that event unless the event was a duplicate. */
  ghost predicate RecordsComplete(l: Ledger) {
    forall k <- l.events | l.events[k].status == Applied && l.events[k].payload.provenance.Some? ::
      var x := ExternalKeyOf(l.events[k], l.events[k].payload.provenance.value);
      x in l.externals && k in l.receipts && (l.externals[x].origin == k || l.receipts[k].result == SourceDuplicate)
  }

  /** A receipt says source duplicate exactly when the event does, and only confirmed events have a row. */
  ghost predicate ResultsTold(l: Ledger) {
    && (forall k <- l.receipts ::
         k in l.events && (l.receipts[k].result == SourceDuplicate <==> l.events[k].result == Some(SourceDuplicate)))
    && (forall r <- l.rows :: l.rows[r].origin in l.events && l.events[l.rows[r].origin].result == Some(CandidateConfirmed))
  }

  ghost predicate Traced(l: Ledger) {
    RowsTraced(l) && RefsOwned(l) && RecordsTraced(l) && RecordsComplete(l) && ResultsTold(l)
  }

  // ---- transactions that leave events, receipts and records alone

  lemma SameEventsTraced(l: Ledger, l': Ledger)
    requires Traced(l) && l'.events == l.events && l'.receipts == l.receipts && l'.externals == l.externals
    requires l'.rows.Keys == l.rows.Keys && forall r <- l.rows :: l'.rows[r].origin == l.rows[r].origin && l'.rows[r].binding == l.rows[r].binding
    ensures Traced(l')
  {
  }

  lemma UndoneTraced(l: Ledger, review: nat, idem: string, opId: nat)
    requires Traced(l) && RevertReady(l, review, idem, opId)
    ensures Traced(CommitRevert(l, review, idem, opId))
  {
    hide Traced;
    RevertedKeepsOrigins(l, review, idem, opId);
    SameEventsTraced(l, CommitRevert(l, review, idem, opId));
  }

  // ---- a new event, and an event that is not settled

  lemma SubmittedTraced(l: Ledger, key: EventKey, e: Event)
    requires Traced(l) && key !in l.events && e.status == Pending && e.backendRef.None?
    ensures Traced(CommitSubmit(l, key, e))
  {
    hide RowsTraced, RefsOwned, RecordsTraced, RecordsComplete, ResultsTold;
    var l' := CommitSubmit(l, key, e);
    UnsettledRows(l, l', key);
    UnsettledRecords(l, l', key);
  }

  lemma UnsettledTraced(l: Ledger, l': Ledger, key: EventKey)
    requires Traced(l) && OriginsMatch(l) && Due(l, key) && key !in l.receipts
    requires l' == l.(events := l'.events) && l'.events.Keys == l.events.Keys && forall k <- l.events | k != key :: l'.events[k] == l.events[k]
    requires l'.events[key].status != Applied && l'.events[key].backendRef == None
    ensures Traced(l')
  {
    hide RowsTraced, RefsOwned, RecordsTraced, RecordsComplete, ResultsTold, OriginsMatch;
    UnappliedHasNoRow(l, key);
    UnsettledRows(l, l', key);
    UnsettledRecords(l, l', key);
  }

  lemma UnappliedHasNoRow(l: Ledger, key: EventKey)
    requires OriginsMatch(l) && Due(l, key)
    ensures forall r <- l.rows :: l.rows[r].origin != key
  {
  }

  lemma UnsettledRows(l: Ledger, l': Ledger, key: EventKey)
    requires RowsTraced(l) && RefsOwned(l) && ResultsTold(l) && l'.rows == l.rows && l'.receipts == l.receipts
    requires key !in l.events || (key !in l.receipts && forall r <- l.rows :: l.rows[r].origin != key)
    requires key in l'.events && l'.events == l.events[key := l'.events[key]] && l'.events[key].backendRef == None
    ensures RowsTraced(l') && RefsOwned(l') && ResultsTold(l')
  {
  }

  lemma UnsettledRecords(l: Ledger, l': Ledger, key: EventKey)
    requires RecordsTraced(l) && RecordsComplete(l) && l'.externals == l.externals && l'.receipts == l.receipts
    requires key in l.events ==> l.events[key].status != Applied
    requires key in l'.events && l'.events == l.events[key := l'.events[key]] && l'.events[key].status != Applied
    ensures RecordsTraced(l') && RecordsComplete(l')
  {
  }

  // ---- confirmations

  lemma ConfirmedTraced(l: Ledger, review: nat, idem: string, action: Action, payload: Payload, ref: FactId, target: Option<FactId>)
    requires Traced(l) && OriginsMatch(l) && EventsMatch(l) && ConfirmReady(l, review, idem, action, payload, ref, target)
    ensures Traced(CommitConfirm(l, review, idem, action, payload, ref, target))
  {
    hide RowsTraced, RefsOwned, RecordsTraced, RecordsComplete, ResultsTold, OriginsMatch, EventsMatch, CommitConfirm;
    ConfirmedParts(l, review, idem, action, payload, ref, target);
    CandidateIsNoDuplicate(l, review);
    var l' := CommitConfirm(l, review, idem, action, payload, ref, target);
    LedOnTraced(l, l', l.reviews[review].origin, ref);
  }

  lemma ConfirmedParts(l: Ledger, review: nat, idem: string, action: Action, payload: Payload, ref: FactId, target: Option<FactId>)
    requires ConfirmReady(l, review, idem, action, payload, ref, target)
    ensures var l', k := CommitConfirm(l, review, idem, action, payload, ref, target), l.reviews[review].origin;
      && l'.receipts == l.receipts && l'.externals == Redirected(l.externals, k, ref)
      && l'.events.Keys == l.events.Keys && (forall j <- l.events | j != k :: l'.events[j] == l.events[j])
      && SameTrail(l.events[k], l'.events[k]) && l'.events[k].backendRef == Some(ref) && l'.events[k].status == l.events[k].status
      && l'.events[k].result == Some(CandidateConfirmed)
      && l'.rows.Keys == l.rows.Keys + {ref} && l'.rows[ref].origin == k && OwnedAs(l'.rows[ref], l.events[k])
      && (forall r <- l.rows :: l'.rows[r].origin == l.rows[r].origin && l'.rows[r].binding == l.rows[r].binding)
  {
    hide Redirected, ConfirmedTombstones, MarkStale;
  }

  lemma CandidateIsNoDuplicate(l: Ledger, review: nat)
    requires EventsMatch(l) && review < |l.reviews|
    ensures var k := l.reviews[review].origin; k in l.events && l.events[k].result != Some(SourceDuplicate)
  {
    assert Reviewed(l.events, l.reviews[review].origin);
  }

  predicate SameTrail(e: Event, e': Event) {
    && e'.tenant == e.tenant && e'.user == e.user && e'.workspace == e.workspace && e'.scope == e.scope
    && e'.payload == e.payload
  }

  predicate OwnedAs(row: Row, e: Event) {
    && row.binding.tenant == e.tenant && row.binding.user == e.user
    && row.binding.workspace == e.workspace && row.binding.scope == e.scope
  }

  /** An applied event without a row now leads to a new one, and so does its record. */
  lemma LedOnTraced(l: Ledger, l': Ledger, k: EventKey, ref: FactId)
    requires Traced(l) && OriginsMatch(l) && k in l.events && l.events[k].status == Applied && k !in l.rowByOrigin && ref !in l.rows
    requires l'.receipts == l.receipts && l'.externals == Redirected(l.externals, k, ref)
    requires l'.events.Keys == l.events.Keys && forall j <- l.events | j != k :: l'.events[j] == l.events[j]
    requires SameTrail(l.events[k], l'.events[k]) && l'.events[k].backendRef == Some(ref) && l'.events[k].status == Applied
    requires l.events[k].result != Some(SourceDuplicate) && l'.events[k].result == Some(CandidateConfirmed)
    requires l'.rows.Keys == l.rows.Keys + {ref} && l'.rows[ref].origin == k && OwnedAs(l'.rows[ref], l.events[k])
    requires forall r <- l.rows :: l'.rows[r].origin == l.rows[r].origin && l'.rows[r].binding == l.rows[r].binding
    ensures Traced(l')
  {
    hide RowsTraced, RefsOwned, RecordsTraced, RecordsComplete, ResultsTold, OriginsMatch, Redirected;
    ConfirmedResults(l, l', k, ref);
    NewRowTraced(l, l', k, ref);
    RedirectedTraced(l, l', k, ref);
    RedirectedComplete(l, l', k, ref);
  }

  lemma ConfirmedResults(l: Ledger, l': Ledger, k: EventKey, ref: FactId)
    requires ResultsTold(l) && k in l.events && l'.receipts == l.receipts
    requires l'.events.Keys == l.events.Keys && forall j <- l.events | j != k :: l'.events[j] == l.events[j]
    requires l.events[k].result != Some(SourceDuplicate) && l'.events[k].result == Some(CandidateConfirmed)
    requires l'.rows.Keys == l.rows.Keys + {ref} && l'.rows[ref].origin == k
    requires forall r <- l.rows :: l'.rows[r].origin == l.rows[r].origin
    ensures ResultsTold(l')
  {
  }

  lemma RedirectedTraced(l: Ledger, l': Ledger, k: EventKey, ref: FactId)
    requires RecordsTraced(l) && k in l.events && l.events[k].status == Applied
    requires l'.receipts == l.receipts && l'.externals == Redirected(l.externals, k, ref)
    requires l'.events.Keys == l.events.Keys && forall j <- l.events | j != k :: l'.events[j] == l.events[j]
    requires SameTrail(l.events[k], l'.events[k]) && l'.events[k].backendRef == Some(ref) && l'.events[k].status == Applied
    ensures RecordsTraced(l')
  {
  }

  lemma RedirectedComplete(l: Ledger, l': Ledger, k: EventKey, ref: FactId)
    requires RecordsComplete(l) && k in l.events && l.events[k].status == Applied
    requires l'.receipts == l.receipts && l'.externals == Redirected(l.externals, k, ref)
    requires l'.events.Keys == l.events.Keys && forall j <- l.events | j != k :: l'.events[j] == l.events[j]
    requires SameTrail(l.events[k], l'.events[k])
    ensures RecordsComplete(l')
  {
  }

  lemma NewRowTraced(l: Ledger, l': Ledger, k: EventKey, ref: FactId)
    requires RowsTraced(l) && RefsOwned(l) && OriginsMatch(l) && k in l.events && k !in l.rowByOrigin && ref !in l.rows
    requires l'.events.Keys == l.events.Keys && forall j <- l.events | j != k :: l'.events[j] == l.events[j]
    requires SameTrail(l.events[k], l'.events[k]) && l'.events[k].backendRef == Some(ref)
    requires l'.rows.Keys == l.rows.Keys + {ref} && l'.rows[ref].origin == k && OwnedAs(l'.rows[ref], l.events[k])
    requires forall r <- l.rows :: l'.rows[r].origin == l.rows[r].origin && l'.rows[r].binding == l.rows[r].binding
    ensures RowsTraced(l') && RefsOwned(l')
  {
  }

  // ---- the worker

  lemma AppliedTraced(l: Ledger, key: EventKey, ref: FactId)
    requires Traced(l) && OriginsMatch(l) && EventsMatch(l) && Ready(l, Applying(key, ref))
    ensures Traced(CommitApplied(l, key, ref))
  {
    hide RecordsTraced, RecordsComplete, RowsTraced, RefsOwned, ResultsTold, MarkStale, RegisterExternal, OriginsMatch, EventsMatch;
    var l' := CommitApplied(l, key, ref);
    DueIsFresh(l, key);
    SettledResults(l, l', key);
    NewRowTraced(l, l', key, ref);
    NewlyKnown(l, l', key, Some(ref));
  }

  /** A newly settled event and its receipt say the same, and the event has a row only when it is confirmed. */
  lemma SettledResults(l: Ledger, l': Ledger, key: EventKey)
    requires ResultsTold(l) && OriginsMatch(l) && Due(l, key)
    requires l'.events.Keys == l.events.Keys && forall k <- l.events | k != key :: l'.events[k] == l.events[k]
    requires key in l'.receipts && l'.receipts == l.receipts[key := l'.receipts[key]] && l'.events[key].result == Some(l'.receipts[key].result)
    requires forall r <- l'.rows :: (r in l.rows && l'.rows[r] == l.rows[r]) || (l'.rows[r].origin == key && l'.events[key].result == Some(CandidateConfirmed))
    ensures ResultsTold(l')
  {
  }

  lemma DueIsFresh(l: Ledger, key: EventKey)
    requires EventsMatch(l) && Due(l, key)
    ensures key !in l.receipts && l.events[key].backendRef.None?
  {
  }

  /** An event that settles as the first of its record registers it. */
  lemma NewlyKnown(l: Ledger, l': Ledger, key: EventKey, ref: Option<FactId>)
    requires RecordsTraced(l) && RecordsComplete(l) && Due(l, key) && !RecordKnown(l, l.events[key])
    requires l'.events.Keys == l.events.Keys && forall k <- l.events | k != key :: l'.events[k] == l.events[k]
    requires SameTrail(l.events[key], l'.events[key]) && l'.events[key].status == Applied && l'.events[key].backendRef == ref
    requires key !in l.receipts && key in l'.receipts && l'.receipts == l.receipts[key := l'.receipts[key]] && l'.receipts[key].result != SourceDuplicate
    requires l'.externals == RegisterExternal(l.externals, key, l.events[key], ref)
    ensures RecordsTraced(l') && RecordsComplete(l')
  {
    hide RecordsTraced, RecordsComplete, RegisterExternal;
    RegisteredRecord(l, key, ref);
    NewlyTraced(l, l', key, ref);
    NewlyComplete(l, l', key, ref);
  }

  lemma RegisteredRecord(l: Ledger, key: EventKey, ref: Option<FactId>)
    requires Due(l, key) && !RecordKnown(l, l.events[key])
    ensures RegisterExternal(l.externals, key, l.events[key], ref)
         == match l.events[key].payload.provenance
            case None => l.externals
            case Some(p) => l.externals[ExternalKeyOf(l.events[key], p) := External(key, ref)]
  {
  }

  lemma NewlyTraced(l: Ledger, l': Ledger, key: EventKey, ref: Option<FactId>)
    requires RecordsTraced(l) && Due(l, key) && key in l'.receipts && l'.receipts[key].result != SourceDuplicate
    requires l'.events.Keys == l.events.Keys && forall k <- l.events | k != key :: l'.events[k] == l.events[k]
    requires SameTrail(l.events[key], l'.events[key]) && l'.events[key].status == Applied && l'.events[key].backendRef == ref
    requires l'.receipts == l.receipts[key := l'.receipts[key]]
    requires l'.externals == match l.events[key].payload.provenance
             case None => l.externals
             case Some(p) => l.externals[ExternalKeyOf(l.events[key], p) := External(key, ref)]
    ensures RecordsTraced(l')
  {
  }

  lemma NewlyComplete(l: Ledger, l': Ledger, key: EventKey, ref: Option<FactId>)
    requires RecordsComplete(l) && Due(l, key) && !RecordKnown(l, l.events[key]) && key !in l.receipts && key in l'.receipts
    requires l'.events.Keys == l.events.Keys && forall k <- l.events | k != key :: l'.events[k] == l.events[k]
    requires SameTrail(l.events[key], l'.events[key])
    requires l'.receipts == l.receipts[key := l'.receipts[key]]
    requires l'.externals == match l.events[key].payload.provenance
             case None => l.externals
             case Some(p) => l.externals[ExternalKeyOf(l.events[key], p) := External(key, ref)]
    ensures RecordsComplete(l')
  {
  }

  lemma ReviewedTraced(l: Ledger, key: EventKey)
    requires Traced(l) && OriginsMatch(l) && EventsMatch(l) && Ready(l, Reviewing(key))
    ensures Traced(CommitReview(l, key))
  {
    hide RowsTraced, RefsOwned, RecordsTraced, RecordsComplete, ResultsTold, RegisterExternal, EventsMatch, OriginsMatch;
    DueIsFresh(l, key);
    var l' := CommitReview(l, key);
    SettledResults(l, l', key);
    SettledRows(l, l', key);
    NewlyKnown(l, l', key, None);
  }

  /** An event settled without a row of its own leads nowhere, or to a row of its owner. */
  lemma SettledRows(l: Ledger, l': Ledger, key: EventKey)
    requires RowsTraced(l) && RefsOwned(l) && OriginsMatch(l) && Due(l, key) && l'.rows == l.rows
    requires l'.events.Keys == l.events.Keys && forall k <- l.events | k != key :: l'.events[k] == l.events[k]
    requires l'.events[key].backendRef.Some? ==>
      var r := l'.events[key].backendRef.value;
      r in l.rows && l.rows[r].binding.tenant == l'.events[key].tenant && l.rows[r].binding.user == l'.events[key].user
      && l.rows[r].binding.workspace == l'.events[key].workspace
    ensures RowsTraced(l') && RefsOwned(l')
  {
  }

  lemma DuplicateTraced(l: Ledger, key: EventKey)
    requires Traced(l) && OriginsMatch(l) && EventsMatch(l) && Ready(l, Deduplicating(key))
    ensures Traced(After(l, Deduplicating(key)))
  {
    hide RowsTraced, RefsOwned, RecordsTraced, RecordsComplete, ResultsTold, EventsMatch, OriginsMatch;
    DueIsFresh(l, key);
    var x := ExternalKeyOf(l.events[key], l.events[key].payload.provenance.value);
    var l' := CommitDuplicate(l, key, l.externals[x].backendRef);
    if l.externals[x].backendRef.Some? { RecordOwned(l, x); }
    SettledResults(l, l', key);
    SettledRows(l, l', key);
    DuplicateRecords(l, l', key);
    DuplicateComplete(l, l', key);
  }

  /** A record leads to a row of its own tenant, user and workspace. */
  lemma RecordOwned(l: Ledger, x: ExternalKey)
    requires RecordsTraced(l) && RefsOwned(l) && x in l.externals && l.externals[x].backendRef.Some?
    ensures var r := l.externals[x].backendRef.value;
      r in l.rows && l.rows[r].binding.tenant == x.tenant && l.rows[r].binding.user == x.user && l.rows[r].binding.workspace == x.workspace
  {
  }

  lemma DuplicateRecords(l: Ledger, l': Ledger, key: EventKey)
    requires RecordsTraced(l) && Due(l, key) && key !in l.receipts && l'.externals == l.externals
    requires l'.events.Keys == l.events.Keys && forall k <- l.events | k != key :: l'.events[k] == l.events[k]
    requires key in l'.receipts && l'.receipts == l.receipts[key := l'.receipts[key]]
    ensures RecordsTraced(l')
  {
  }

  lemma DuplicateComplete(l: Ledger, l': Ledger, key: EventKey)
    requires RecordsComplete(l) && Due(l, key) && key !in l.receipts && l'.externals == l.externals && RecordKnown(l, l.events[key])
    requires l'.events.Keys == l.events.Keys && forall k <- l.events | k != key :: l'.events[k] == l.events[k]
    requires SameTrail(l.events[key], l'.events[key])
    requires key in l'.receipts && l'.receipts == l.receipts[key := l'.receipts[key]] && l'.receipts[key].result == SourceDuplicate
    ensures RecordsComplete(l')
  {
  }

  // ---- every run

  lemma CommitTraced(l: Ledger, c: Commit)
    requires Traced(l) && OriginsMatch(l) && EventsMatch(l) && Ready(l, c)
    ensures Traced(After(l, c))
  {
    hide Traced, OriginsMatch, EventsMatch, ConfirmReady, RevertReady, CommitConfirm, CommitRevert, CommitApplied, CommitReview, CommitDuplicate;
    match c
    case Nothing =>
    case Submitted(key, e) => SubmittedTraced(l, key, e);
    case Confirming(review, idem, action, payload, ref, target) => ConfirmedTraced(l, review, idem, action, payload, ref, target);
    case Undoing(review, idem, opId) => UndoneTraced(l, review, idem, opId);
    case Closing(_, _, _) => SameEventsTraced(l, After(l, c));
    case Retiring(_, _, _) => SameEventsTraced(l, After(l, c));
    case Rebuilt(_) => SameEventsTraced(l, After(l, c));
    case Applying(key, ref) => AppliedTraced(l, key, ref);
    case Reviewing(key) => ReviewedTraced(l, key);
    case Deduplicating(key) => DuplicateTraced(l, key);
    case Postponing(key) => DueIsFresh(l, key); UnsettledTraced(l, After(l, c), key);
    case Abandoning(key) => DueIsFresh(l, key); UnsettledTraced(l, After(l, c), key);
  }

  lemma ServeTraced(s: Store, r: Request, n: nat)
    requires StoreOk(s) && Traced(s.ledger)
    ensures Traced(Serve(s, r, n).ledger)
  {
    hide Traced, Serve, Ready, After, KeysMatch, OriginsMatch, EventsMatch;
    LedgerParts(s.ledger);
    var c := ServeCommits(s, r, n);
    CommitTraced(s.ledger, c);
  }

  lemma {:induction false} RunTraced(s: Store, attempts: seq<Attempt>)
    requires StoreOk(s) && Traced(s.ledger)
    ensures StoreOk(Run(s, attempts)) && Traced(Run(s, attempts).ledger)
    decreases |attempts|
  {
    hide StoreOk, Traced, Serve;
    if attempts != [] {
      var s1 := Serve(s, attempts[0].request, attempts[0].commits);
      ServeKeepsStore(s, attempts[0].request, attempts[0].commits);
      ServeTraced(s, attempts[0].request, attempts[0].commits);
      RunTraced(s1, attempts[1..]);
    }
  }

  /** The trails hold in every state a run reaches, whatever crashed. */
  lemma EveryRunIsTraced(attempts: seq<Attempt>)
    ensures StoreOk(Run(EMPTY, attempts)) && Traced(Run(EMPTY, attempts).ledger)
  {
    hide Run;
    RunTraced(EMPTY, attempts);
  }
}
