/** The first store: the metadata ledger of the gateway, one map or sequence per table, and the
    transactions that change it. Tables keyed by a generated uuid are append-only sequences whose
    index is the id; a UNIQUE column other than the key has an index map of its own. */
module Ledger {
  import opened Names

  /** A request's principal together with the workspace it names. */
  datatype Principal = Principal(tenant: string, user: string, workspace: string, device: string, agent: string)

  datatype SemanticKeys = SemanticKeys(entity: Option<string>, attribute: Option<string>, temporal: Option<string>)

  datatype Provenance = Provenance(provider: string, record: string, revision: string)

  /** The decrypted body of an event, with the scanner's two verdicts on it. */
  datatype Payload = Payload(content: string, ns: Option<string>, keys: SemanticKeys, provenance: Option<Provenance>,
                             userExplicit: bool, sensitive: bool, instruction: bool)

  datatype EventStatus = Pending | Retryable | Applied | Rejected | DeadLetter

  datatype EventResult = CandidateConfirmed | CandidateCreated | SourceDuplicate

  datatype Event = Event(tenant: string, user: string, agent: string, workspace: string, scope: Scope, payload: Payload,
                         status: EventStatus, result: Option<EventResult>, backendRef: Option<FactId>,
                         revision: Option<nat>, retries: nat)

  /** The fixed receipt of an event; ack stands for the generated ack_id. */
  datatype Receipt = Receipt(ack: nat, result: EventResult, backendRef: Option<FactId>, revision: nat)

  datatype ReviewStatus = Open | Confirmed | ClosedArchived | ClosedRejected

  datatype Review = Review(origin: EventKey, status: ReviewStatus, revision: nat, lastOp: Option<nat>)

  datatype Action = Confirm | ConfirmEdit | RetainBoth | Supersession | Archive | Reject | Revert {
    predicate CreatesFact() {
      Confirm? || ConfirmEdit? || RetainBoth? || Supersession?
    }
  }

  datatype Op = Op(review: nat, idem: string, tenant: string, user: string, workspace: string, action: Action,
                   expected: nat, ref: Option<FactId>, target: Option<FactId>, compensates: Option<nat>)

  datatype RowStatus = Active | Superseded | Archived

  datatype Row = Row(binding: ScopeBinding, origin: EventKey, keys: SemanticKeys, instruction: bool, pinned: bool,
                     status: RowStatus, supersededBy: Option<FactId>, updated: nat)

  datatype Tombstone = Tombstone(tenant: string, user: string, deleted: nat, revoked: Option<nat>)

  datatype Crystal = Crystal(ready: bool, refs: set<FactId>, generated: nat)

  datatype ExternalKey = ExternalKey(tenant: string, user: string, workspace: string, provenance: Provenance)

  datatype External = External(origin: EventKey, backendRef: Option<FactId>)

  datatype Ledger = Ledger(events: map<EventKey, Event>, receipts: map<EventKey, Receipt>,
                           reviews: seq<Review>, ops: seq<Op>, opByKey: map<string, nat>,
                           rows: map<FactId, Row>, rowByOrigin: map<EventKey, FactId>,
                           tombstones: map<FactId, Tombstone>, crystals: map<ScopeBinding, Crystal>,
                           externals: map<ExternalKey, External>, revision: nat)

  const EMPTY_LEDGER := Ledger(map[], map[], [], [], map[], map[], map[], map[], map[], map[], 0)

  // ---- statements shared by several transactions

  /** INSERT ... ON CONFLICT (backend_ref) DO UPDATE: an existing row keeps its owner. */
  function PutTombstone(tombstones: map<FactId, Tombstone>, ref: FactId, tenant: string, user: string, revision: nat)
    : map<FactId, Tombstone>
  {
    tombstones[ref := if ref in tombstones then tombstones[ref].(deleted := revision, revoked := None)
                      else Tombstone(tenant, user, revision, None)]
  }

  /** The WHERE clause of the tombstone revocation. */
  predicate Revocable(tombstones: map<FactId, Tombstone>, ref: FactId, tenant: string, user: string) {
    && ref in tombstones
    && tombstones[ref].tenant == tenant && tombstones[ref].user == user && tombstones[ref].revoked.None?
  }

  function MarkStale(crystals: map<ScopeBinding, Crystal>, binding: ScopeBinding): map<ScopeBinding, Crystal> {
    if binding in crystals && crystals[binding].ready then crystals[binding := crystals[binding].(ready := false)]
    else crystals
  }

  function MarkStaleFor(crystals: map<ScopeBinding, Crystal>, rows: map<FactId, Row>, ref: FactId)
    : map<ScopeBinding, Crystal>
  {
    if ref in rows then MarkStale(crystals, rows[ref].binding) else crystals
  }

  predicate OwnedRow(rows: map<FactId, Row>, ref: FactId, tenant: string, user: string) {
    ref in rows && rows[ref].binding.tenant == tenant && rows[ref].binding.user == user
  }

  /** UPDATE memory_lifecycle ... WHERE backend_ref AND tenant_id AND user_id. */
  function SetStatus(rows: map<FactId, Row>, ref: FactId, tenant: string, user: string, status: RowStatus,
                     supersededBy: Option<FactId>, revision: nat): map<FactId, Row>
  {
    if OwnedRow(rows, ref, tenant, user)
    then rows[ref := rows[ref].(status := status, supersededBy := supersededBy, updated := revision)]
    else rows
  }

  function SupersededByOf(rows: map<FactId, Row>, ref: FactId): Option<FactId> {
    if ref in rows then rows[ref].supersededBy else None
  }

  function BindingOf(origin: EventKey, e: Event, payload: Payload): ScopeBinding {
    ScopeBinding(e.tenant, e.user, e.workspace, e.scope,
                 match payload.ns case Some(n) => n case None => "device:" + origin.device)
  }

  /** The active rows that claim the same attribute of the same entity in the same scope. */
  function FindConflicts(rows: map<FactId, Row>, binding: ScopeBinding, keys: SemanticKeys): set<FactId> {
    if keys.entity.None? || keys.attribute.None? then {}
    else set r | r in rows && rows[r].binding == binding && rows[r].keys == keys && rows[r].status == Active
  }

  /** The sources of a scope's crystal: its active rows that are not instruction-like. */
  function Sources(rows: map<FactId, Row>, binding: ScopeBinding): set<FactId> {
    set r | r in rows && rows[r].binding == binding && rows[r].status == Active && !rows[r].instruction
  }

  // ---- transactions

  function CommitSubmit(l: Ledger, key: EventKey, e: Event): Ledger {
    l.(events := l.events[key := e])
  }

  /** The worker's bookkeeping for an event whose fact is in GBrain. */
  function CommitApplied(l: Ledger, key: EventKey, ref: FactId): Ledger
    requires key in l.events
  {
    var e, rev := l.events[key], l.revision + 1;
    var binding := BindingOf(key, e, e.payload);
    var row := Row(binding, key, e.payload.keys, false, false, Active, None, rev);
    l.(events := l.events[key := e.(status := Applied, result := Some(CandidateConfirmed), backendRef := Some(ref), revision := Some(rev))],
       receipts := PutReceipt(l.receipts, key, Receipt(rev, CandidateConfirmed, Some(ref), rev)),
       rows := if ref in l.rows then l.rows else l.rows[ref := row],
       rowByOrigin := if ref in l.rows then l.rowByOrigin else l.rowByOrigin[key := ref],
       crystals := MarkStale(l.crystals, binding),
       externals := RegisterExternal(l.externals, key, e, Some(ref)),
       revision := rev)
  }

  function PutReceipt(receipts: map<EventKey, Receipt>, key: EventKey, receipt: Receipt): map<EventKey, Receipt> {
    if key in receipts then receipts else receipts[key := receipt]
  }

  function ExternalKeyOf(e: Event, provenance: Provenance): ExternalKey {
    ExternalKey(e.tenant, e.user, e.workspace, provenance)
  }

  function RegisterExternal(externals: map<ExternalKey, External>, key: EventKey, e: Event, ref: Option<FactId>)
    : map<ExternalKey, External>
  {
    match e.payload.provenance
    case None => externals
    case Some(p) =>
      var x := ExternalKeyOf(e, p);
      externals[x := if x in externals then externals[x].(backendRef := if ref.Some? then ref else externals[x].backendRef)
                     else External(key, ref)]
  }

  /** An ordinary agent observation becomes a review candidate. */
  function CommitReview(l: Ledger, key: EventKey): Ledger
    requires key in l.events
  {
    var e, rev := l.events[key], l.revision + 1;
    l.(events := l.events[key := e.(status := Applied, result := Some(CandidateCreated), revision := Some(rev))],
       receipts := PutReceipt(l.receipts, key, Receipt(rev, CandidateCreated, None, rev)),
       reviews := l.reviews + [Review(key, Open, 1, None)],
       externals := RegisterExternal(l.externals, key, e, None),
       revision := rev)
  }

  function CommitDuplicate(l: Ledger, key: EventKey, ref: Option<FactId>): Ledger
    requires key in l.events
  {
    var e, rev := l.events[key], l.revision + 1;
    l.(events := l.events[key := e.(status := Applied, result := Some(SourceDuplicate), backendRef := ref, revision := Some(rev))],
       receipts := PutReceipt(l.receipts, key, Receipt(rev, SourceDuplicate, ref, rev)),
       revision := rev)
  }

  function CommitRetry(l: Ledger, key: EventKey): Ledger
    requires key in l.events
  {
    l.(events := l.events[key := l.events[key].(status := Retryable, retries := l.events[key].retries + 1)])
  }

  function CommitDeadLetter(l: Ledger, key: EventKey): Ledger
    requires key in l.events
  {
    l.(events := l.events[key := l.events[key].(status := DeadLetter)])
  }

  /** UPDATE external_memory_bindings SET backend_ref WHERE device_id AND event_id. */
  function Redirected(externals: map<ExternalKey, External>, origin: EventKey, ref: FactId): map<ExternalKey, External> {
    map x | x in externals :: if externals[x].origin == origin then externals[x].(backendRef := Some(ref)) else externals[x]
  }

  /** Insert the new row, then mark the target superseded by it. */
  function ConfirmedRows(rows: map<FactId, Row>, ref: FactId, row: Row, target: Option<FactId>, tenant: string,
                         user: string, revision: nat): map<FactId, Row>
  {
    var inserted := if ref in rows then rows else rows[ref := row];
    match target
    case None => inserted
    case Some(t) => SetStatus(inserted, t, tenant, user, Superseded, Some(ref), revision)
  }

  function ConfirmedTombstones(tombstones: map<FactId, Tombstone>, target: Option<FactId>, tenant: string, user: string,
                               revision: nat): map<FactId, Tombstone>
  {
    match target
    case None => tombstones
    case Some(t) => PutTombstone(tombstones, t, tenant, user, revision)
  }

  /** The ledger half of a confirmation; ConfirmRefusal says when the transaction is rolled back instead. */
  function CommitConfirm(l: Ledger, review: nat, idem: string, action: Action, payload: Payload, ref: FactId,
                         target: Option<FactId>): Ledger
    requires review < |l.reviews| && l.reviews[review].origin in l.events
  {
    var c, rev, op := l.reviews[review], l.revision + 1, |l.ops|;
    var e := l.events[c.origin];
    var binding := BindingOf(c.origin, e, payload);
    var row := Row(binding, c.origin, payload.keys, payload.instruction, false, Active, None, rev);
    l.(ops := l.ops + [Op(review, idem, e.tenant, e.user, e.workspace, action, c.revision, Some(ref), target, None)],
       opByKey := l.opByKey[idem := op],
       rows := ConfirmedRows(l.rows, ref, row, target, e.tenant, e.user, rev),
       rowByOrigin := if ref in l.rows then l.rowByOrigin else l.rowByOrigin[c.origin := ref],
       tombstones := ConfirmedTombstones(l.tombstones, target, e.tenant, e.user, rev),
       crystals := MarkStale(l.crystals, binding),
       reviews := l.reviews[review := Review(c.origin, Confirmed, c.revision + 1, Some(op))],
       events := l.events[c.origin := e.(backendRef := Some(ref), result := Some(CandidateConfirmed), revision := Some(rev))],
       externals := Redirected(l.externals, c.origin, ref),
       revision := rev)
  }

  /** Archive or reject: the candidate is closed and no fact is made. */
  function CommitClose(l: Ledger, review: nat, idem: string, action: Action): Ledger
    requires review < |l.reviews| && l.reviews[review].origin in l.events
  {
    var c := l.reviews[review];
    var e := l.events[c.origin];
    l.(ops := l.ops + [Op(review, idem, e.tenant, e.user, e.workspace, action, c.revision, None, None, None)],
       opByKey := l.opByKey[idem := |l.ops|],
       reviews := l.reviews[review := Review(c.origin, if action == Archive then ClosedArchived else ClosedRejected,
                                             c.revision + 1, Some(|l.ops|))],
       revision := l.revision + 1)
  }

  /** The rows after a revert: the created fact is archived, the superseded one becomes active again.
      Neither update looks at the status it replaces. */
  function RevertedRows(l: Ledger, undone: Op, tenant: string, user: string): map<FactId, Row> {
    var rev := l.revision + 1;
    var archived := match undone.ref case None => l.rows
      case Some(r) => SetStatus(l.rows, r, tenant, user, Archived, SupersededByOf(l.rows, r), rev);
    if undone.action == Supersession && undone.target.Some?
    then SetStatus(archived, undone.target.value, tenant, user, Active, None, rev) else archived
  }

  function RevertedTombstones(l: Ledger, undone: Op, tenant: string, user: string): map<FactId, Tombstone> {
    var rev := l.revision + 1;
    var put := match undone.ref case None => l.tombstones
      case Some(r) => PutTombstone(l.tombstones, r, tenant, user, rev);
    if undone.action == Supersession && undone.target.Some? && Revocable(put, undone.target.value, tenant, user)
    then put[undone.target.value := put[undone.target.value].(revoked := Some(rev))] else put
  }

  /** The crystals of both scopes a revert touches go stale. */
  function RevertedCrystals(crystals: map<ScopeBinding, Crystal>, rows: map<FactId, Row>, undone: Op): map<ScopeBinding, Crystal> {
    var stale := match undone.ref case None => crystals case Some(r) => MarkStaleFor(crystals, rows, r);
    if undone.action == Supersession && undone.target.Some? then MarkStaleFor(stale, rows, undone.target.value) else stale
  }

  function CommitRevert(l: Ledger, review: nat, idem: string, opId: nat): Ledger
    requires review < |l.reviews| && l.reviews[review].origin in l.events && opId < |l.ops|
  {
    var c, rev, undone := l.reviews[review], l.revision + 1, l.ops[opId];
    var e := l.events[c.origin];
    l.(ops := l.ops + [Op(review, idem, e.tenant, e.user, e.workspace, Revert, c.revision, undone.ref, undone.target, Some(opId))],
       opByKey := l.opByKey[idem := |l.ops|],
       rows := RevertedRows(l, undone, e.tenant, e.user),
       tombstones := RevertedTombstones(l, undone, e.tenant, e.user),
       crystals := RevertedCrystals(l.crystals, l.rows, undone),
       reviews := l.reviews[review := Review(c.origin, Open, c.revision + 1, Some(|l.ops|))],
       revision := rev)
  }

  function CommitForget(l: Ledger, ref: FactId, tenant: string, user: string): Ledger
    requires ref in l.rows
  {
    var rev := l.revision + 1;
    l.(rows := l.rows[ref := l.rows[ref].(status := Archived, updated := rev)],
       tombstones := PutTombstone(l.tombstones, ref, tenant, user, rev),
       crystals := MarkStale(l.crystals, l.rows[ref].binding),
       revision := rev)
  }

  function CommitRebuild(l: Ledger, binding: ScopeBinding, refs: set<FactId>): Ledger {
    l.(crystals := l.crystals[binding := Crystal(true, refs, l.revision + 1)], revision := l.revision + 1)
  }
}
