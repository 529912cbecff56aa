/** The services as objects that update their tables in place. Each method takes the stores exactly where the
    corresponding function of GBrain, Ledger and Lifecycle says; each request of the gateway keeps the invariants of
    both stores at any crash, and says when, complete, it keeps the two in step. */
module Services {
  import opened Names
  import B = GBrain
  import L = Ledger
  import opened Lifecycle
  import A = AllRuns
  import S = StoreAgreement

  // ---- what the requests keep

  lemma ResolveKeeps(s: Store, q: ResolveRequest, commits: nat)
    requires A.StoreOk(s)
    ensures A.StoreOk(Resolve(s, q, commits).store)
    ensures S.Consistent(s, {}, {}) && commits >= 3 ==> (S.Consistent(Resolve(s, q, commits).store, {}, {}) <==> !S.ResolveStrands(s, q))
  {
    hide A.StoreOk, S.Consistent, S.Agree, S.ResolveStrands, Resolve;
    A.ResolveKeepsStore(s, q, commits);
    if S.Consistent(s, {}, {}) && commits >= 3 { S.ResolveAgrees(s, q, commits, {}, {}); }
    S.Inconsistent(Resolve(s, q, commits).store);
  }

  lemma RevertKeeps(s: Store, q: RevertRequest, commits: nat)
    requires A.StoreOk(s)
    ensures A.StoreOk(RevertOp(s, q, commits).store)
    ensures S.Consistent(s, {}, {}) && commits >= 2 ==> (S.Consistent(RevertOp(s, q, commits).store, {}, {}) <==> !S.RevertStrands(s, q))
  {
    hide A.StoreOk, S.Consistent, S.Agree, S.RevertStrands, RevertOp;
    A.RevertKeepsStore(s, q, commits);
    if S.Consistent(s, {}, {}) && commits >= 2 { S.RevertAgrees(s, q, commits, {}, {}); }
    S.Inconsistent(RevertOp(s, q, commits).store);
  }

  lemma ForgetKeeps(s: Store, who: L.Principal, ref: FactId, commits: nat)
    requires A.StoreOk(s)
    ensures A.StoreOk(Forget(s, who, ref, commits).store)
    ensures S.Consistent(s, {}, {}) && commits >= 2 ==> S.Consistent(Forget(s, who, ref, commits).store, {}, {})
  {
    hide A.StoreOk, S.Consistent, Forget;
    A.ForgetKeepsStore(s, who, ref, commits);
    if S.Consistent(s, {}, {}) && commits >= 2 { S.ForgetAgrees(s, who, ref, commits, {}, {}); }
  }

  lemma RebuildKeeps(s: Store, who: L.Principal, scope: Scope, ns: string, idem: string, commits: nat)
    requires A.StoreOk(s)
    ensures A.StoreOk(RebuildCrystal(s, who, scope, ns, idem, commits).store)
    ensures S.Consistent(s, {}, {}) ==> S.Consistent(RebuildCrystal(s, who, scope, ns, idem, commits).store, {}, {})
  {
    hide A.StoreOk, S.Consistent, RebuildCrystal;
    A.RebuildKeepsStore(s, who, scope, ns, idem, commits);
    if S.Consistent(s, {}, {}) { S.RebuildAgrees(s, who, scope, ns, idem, commits, {}, {}); }
  }

  lemma SubmitKeeps(s: Store, who: L.Principal, id: string, scope: Scope, payload: L.Payload)
    requires A.StoreOk(s)
    ensures A.StoreOk(Submit(s, who, id, scope, payload).store)
    ensures S.Consistent(s, {}, {}) ==> S.Consistent(Submit(s, who, id, scope, payload).store, {}, {})
  {
    hide A.StoreOk, S.Consistent, Submit;
    A.SubmitKeepsStore(s, who, id, scope, payload);
    if S.Consistent(s, {}, {}) { S.SubmitAgrees(s, who, id, scope, payload, {}, {}); }
  }

  lemma WorkerKeeps(s: Store, key: EventKey, luck: Luck, commits: nat)
    requires A.StoreOk(s) && Due(s.ledger, key)
    ensures A.StoreOk(WorkerPass(s, key, luck, commits).store)
    ensures S.Consistent(s, {}, {}) ==> S.Consistent(WorkerPass(s, key, luck, commits).store, {}, {})
  {
    hide A.StoreOk, S.Consistent, WorkerPass;
    A.WorkerKeepsStore(s, key, luck, commits);
    if S.Consistent(s, {}, {}) { S.WorkerAgrees(s, key, luck, commits, {}, {}); }
  }

  // ---- the classes

  function TargetOf(q: ResolveRequest): Option<FactId> {
    if q.action == L.Supersession then q.target else None
  }

  /** Why the rows of a confirmation are refused. */
  function RowRefusal(rows: map<FactId, L.Row>, rowByOrigin: map<EventKey, FactId>, ref: FactId, origin: EventKey, target: Option<FactId>,
                      tenant: string, user: string): Option<Problem>
  {
    if ref !in rows && origin in rowByOrigin then Some(OriginTaken)
    else if target.Some? && (!L.OwnedRow(rows, target.value, tenant, user)
                             || rows[target.value].status != L.Active || rows[target.value].pinned) then Some(TargetInvalid)
    else None
  }

  /** Why the rows of a revert are refused: the tombstone of the target is looked up after that of the created fact. */
  function UndoRefusal(tombstones: map<FactId, L.Tombstone>, undone: L.Op, tenant: string, user: string, rev: nat): Option<Problem> {
    var put := match undone.ref case None => tombstones case Some(r) => L.PutTombstone(tombstones, r, tenant, user, rev);
    if undone.action == L.Supersession && undone.target.Some? && !L.Revocable(put, undone.target.value, tenant, user)
    then Some(TombstoneMissing) else None
  }

  lemma RevertRefusalByStatement(l: L.Ledger, q: RevertRequest)
    requires q.review < |l.reviews| && l.reviews[q.review].origin in l.events && q.opId < |l.ops|
    ensures var e := l.events[l.reviews[q.review].origin];
      RevertRefusal(l, q) == if q.idem in l.opByKey then Some(KeyTaken)
                             else UndoRefusal(l.tombstones, l.ops[q.opId], e.tenant, e.user, l.revision + 1)
  {
  }

  lemma RefusalByStatement(l: L.Ledger, q: ResolveRequest, ref: FactId)
    requires q.review < |l.reviews| && l.reviews[q.review].origin in l.events
    ensures var origin := l.reviews[q.review].origin;
      ConfirmRefusal(l, q, ref) ==
        if q.idem in l.opByKey then Some(KeyTaken)
        else RowRefusal(l.rows, l.rowByOrigin, ref, origin, TargetOf(q), l.events[origin].tenant, l.events[origin].user)
  {
  }

  lemma MarkingIsIdempotent(crystals: map<ScopeBinding, L.Crystal>, binding: ScopeBinding)
    ensures L.MarkStale(L.MarkStale(crystals, binding), binding) == L.MarkStale(crystals, binding)
  {
  }

  lemma StatusKeepsBinding(crystals: map<ScopeBinding, L.Crystal>, rows: map<FactId, L.Row>, ref: FactId, tenant: string,
                           user: string, status: L.RowStatus, heir: Option<FactId>, rev: nat, target: FactId)
    ensures L.MarkStaleFor(crystals, L.SetStatus(rows, ref, tenant, user, status, heir, rev), target)
         == L.MarkStaleFor(crystals, rows, target)
  {
  }

  class GBrainBackend {
    var facts: seq<B.Fact>
    var bindings: map<B.Key, FactId>
    var operations: map<B.Key, B.Operation>
    var pages: set<B.Ref>

    function State(): B.Brain
      reads this
    {
      B.Brain(facts, bindings, operations, pages)
    }

    constructor ()
      ensures State() == B.EMPTY_BRAIN
    {
      facts, bindings, operations, pages := [], map[], map[], {};
    }

    method InsertOperation(key: B.Key, kind: B.Kind, target: B.Target, result: B.Ref)
      modifies this`operations
      ensures operations == old(operations)[key := B.Operation(kind, target, result)]
    {
      operations := operations[key := B.Operation(kind, target, result)];
    }

    method UpsertConfirmed(key: B.Key, source: string, content: string) returns (reply: B.Reply)
      modifies this
      ensures B.Step(State(), reply) == B.Upsert(old(State()), key, source, content)
    {
      if key in operations {
        return B.Fail(B.KeyReuse);
      }
      if key in bindings {
        return B.Ok(B.FactRef(bindings[key]));
      }
      var id := |facts|;
      facts := facts + [B.Fact(source, content, key, false, None)];
      bindings := bindings[key := id];
      return B.Ok(B.FactRef(id));
    }

    method Supersede(key: B.Key, oldId: FactId, newId: FactId) returns (reply: B.Reply)
      modifies this
      ensures B.Step(State(), reply) == B.Supersede(old(State()), key, oldId, newId)
    {
      if oldId == newId {
        return B.Fail(B.SupersedeSelf);
      }
      var existing := B.ExistingOperation(State(), key, B.SupersedeOp, B.OnFact(oldId));
      if existing.Some? {
        return existing.value;
      }
      if oldId >= |facts| || newId >= |facts| {
        return B.Fail(B.NotManaged);
      }
      if facts[oldId].source != facts[newId].source {
        return B.Fail(B.ScopeMismatch);
      }
      if !facts[oldId].Live() || !facts[newId].Live() {
        return B.Fail(B.StateConflict);
      }
      facts := facts[oldId := facts[oldId].(supersededBy := Some(newId))];
      InsertOperation(key, B.SupersedeOp, B.OnFact(oldId), B.FactRef(newId));
      return B.Ok(B.FactRef(newId));
    }

    method SetExpiredState(key: B.Key, id: FactId, kind: B.Kind) returns (reply: B.Reply)
      modifies this
      ensures B.Step(State(), reply) == B.SetExpired(old(State()), key, id, kind)
    {
      var existing := B.ExistingOperation(State(), key, kind, B.OnFact(id));
      if existing.Some? {
        return existing.value;
      }
      if id >= |facts| {
        return B.Fail(B.NotManaged);
      }
      if kind == B.ArchiveOp && B.Tombstoned(State(), id) {
        return B.Fail(B.StateConflict);
      }
      facts := facts[id := facts[id].(expired := true)];
      InsertOperation(key, kind, B.OnFact(id), B.FactRef(id));
      return B.Ok(B.FactRef(id));
    }

    method RestoreSuperseded(key: B.Key, oldId: FactId, newId: FactId) returns (reply: B.Reply)
      modifies this
      ensures B.Step(State(), reply) == B.Restore(old(State()), key, oldId, newId)
    {
      if oldId == newId {
        return B.Fail(B.SupersedeSelf);
      }
      var existing := B.ExistingOperation(State(), key, B.RestoreOp, B.OnPair(oldId, newId));
      if existing.Some? {
        return existing.value;
      }
      if oldId >= |facts| || newId >= |facts| {
        return B.Fail(B.NotManaged);
      }
      if facts[oldId].source != facts[newId].source {
        return B.Fail(B.ScopeMismatch);
      }
      if facts[oldId].expired || facts[oldId].supersededBy != Some(newId) {
        return B.Fail(B.StateConflict);
      }
      facts := facts[oldId := facts[oldId].(supersededBy := None)];
      facts := facts[newId := facts[newId].(expired := true)];
      InsertOperation(key, B.RestoreOp, B.OnPair(oldId, newId), B.FactRef(oldId));
      return B.Ok(B.FactRef(oldId));
    }

    method Reactivate(key: B.Key, id: FactId) returns (reply: B.Reply)
      modifies this
      ensures B.Step(State(), reply) == B.Reactivate(old(State()), key, id)
    {
      var existing := B.ExistingOperation(State(), key, B.ReactivateOp, B.OnFact(id));
      if existing.Some? {
        return existing.value;
      }
      if id >= |facts| {
        return B.Fail(B.NotManaged);
      }
      if !facts[id].expired || facts[id].supersededBy.Some? || B.Tombstoned(State(), id) {
        return B.Fail(B.StateConflict);
      }
      facts := facts[id := facts[id].(expired := false)];
      InsertOperation(key, B.ReactivateOp, B.OnFact(id), B.FactRef(id));
      return B.Ok(B.FactRef(id));
    }

    method RebuildCrystal(key: B.Key, source: string, refs: set<FactId>, binding: ScopeBinding) returns (reply: B.Reply)
      modifies this
      ensures B.Step(State(), reply) == B.Rebuild(old(State()), key, source, refs, binding)
    {
      if |refs| < 2 || |refs| > 100 {
        return B.Fail(B.SourceCountInvalid);
      }
      var existing := B.ExistingOperation(State(), key, B.RebuildOp, B.OnScope(binding));
      if existing.Some? {
        return existing.value;
      }
      if exists r <- refs :: r >= |facts| {
        return B.Fail(B.NotManaged);
      }
      if exists r <- refs, q <- refs :: facts[r].source != facts[q].source {
        return B.Fail(B.ScopeMismatch);
      }
      if exists r <- refs :: facts[r].source != source || !facts[r].Live() {
        return B.Fail(B.StateConflict);
      }
      var page := B.PageRef(source, binding, refs);
      pages := pages + {page};
      InsertOperation(key, B.RebuildOp, B.OnScope(binding), page);
      return B.Ok(page);
    }
  }

  class Gateway {
    const backend: GBrainBackend
    var events: map<EventKey, L.Event>
    var receipts: map<EventKey, L.Receipt>
    var reviews: seq<L.Review>
    var ops: seq<L.Op>
    var opByKey: map<string, nat>
    var rows: map<FactId, L.Row>
    var rowByOrigin: map<EventKey, FactId>
    var tombstones: map<FactId, L.Tombstone>
    var crystals: map<ScopeBinding, L.Crystal>
    var externals: map<L.ExternalKey, L.External>
    var revision: nat

    function Tables(): L.Ledger
      reads this
    {
      L.Ledger(events, receipts, reviews, ops, opByKey, rows, rowByOrigin, tombstones, crystals, externals, revision)
    }

    function Stores(): Store
      reads this, backend
    {
      Store(Tables(), backend.State())
    }

    /** The invariants of every run: see LedgerInvariants and AllRuns. */
    ghost predicate Valid()
      reads this, backend
    {
      A.StoreOk(Stores())
    }

    /** Each row is active, superseded or archived as its fact is, and every spent key is accounted for. */
    ghost predicate InStep()
      reads this, backend
    {
      S.Consistent(Stores(), {}, {})
    }

    constructor (backend: GBrainBackend)
      requires backend.State() == B.EMPTY_BRAIN
      ensures this.backend == backend && Stores() == EMPTY && Valid() && InStep()
    {
      this.backend := backend;
      events, receipts, reviews, ops, opByKey := map[], map[], [], [], map[];
      rows, rowByOrigin, tombstones, crystals, externals, revision := map[], map[], map[], map[], map[], 0;
    }

    // ---- statements of a ledger transaction

    method NextRevision() returns (rev: nat)
      modifies this`revision
      ensures rev == revision == old(revision) + 1
    {
      revision := revision + 1;
      rev := revision;
    }

    method InsertTombstone(ref: FactId, tenant: string, user: string, rev: nat)
      modifies this`tombstones
      ensures tombstones == L.PutTombstone(old(tombstones), ref, tenant, user, rev)
    {
      if ref in tombstones {
        tombstones := tombstones[ref := tombstones[ref].(deleted := rev, revoked := None)];
      } else {
        tombstones := tombstones[ref := L.Tombstone(tenant, user, rev, None)];
      }
    }

    /** The number of rows the revocation changed. */
    method RevokeTombstone(ref: FactId, tenant: string, user: string, rev: nat) returns (changed: nat)
      modifies this`tombstones
      ensures changed == if L.Revocable(old(tombstones), ref, tenant, user) then 1 else 0
      ensures changed == 0 ==> tombstones == old(tombstones)
      ensures changed == 1 ==> tombstones == old(tombstones)[ref := old(tombstones)[ref].(revoked := Some(rev))]
    {
      changed := 0;
      if L.Revocable(tombstones, ref, tenant, user) {
        tombstones := tombstones[ref := tombstones[ref].(revoked := Some(rev))];
        changed := 1;
      }
    }

    method MarkCrystalStale(binding: ScopeBinding)
      modifies this`crystals
      ensures crystals == L.MarkStale(old(crystals), binding)
    {
      if binding in crystals && crystals[binding].ready {
        crystals := crystals[binding := crystals[binding].(ready := false)];
      }
    }

    method MarkBackendCrystalStale(ref: FactId)
      modifies this`crystals
      ensures crystals == L.MarkStaleFor(old(crystals), rows, ref)
    {
      if ref in rows {
        MarkCrystalStale(rows[ref].binding);
      }
    }

    method UpdateStatus(ref: FactId, tenant: string, user: string, status: L.RowStatus, supersededBy: Option<FactId>, rev: nat)
      modifies this`rows
      ensures rows == L.SetStatus(old(rows), ref, tenant, user, status, supersededBy, rev)
    {
      if ref in rows && rows[ref].binding.tenant == tenant && rows[ref].binding.user == user {
        rows := rows[ref := rows[ref].(status := status, supersededBy := supersededBy, updated := rev)];
      }
    }

    /** Refused when the key is in the log already, whoever owns that operation. */
    method RecordOperation(review: nat, idem: string, action: L.Action, ref: Option<FactId>, target: Option<FactId>,
                           compensates: Option<nat>) returns (refusal: Option<Problem>)
      requires review < |reviews| && reviews[review].origin in events
      modifies this`ops, this`opByKey
      ensures refusal == if idem in old(opByKey) then Some(KeyTaken) else None
      ensures refusal.Some? ==> ops == old(ops) && opByKey == old(opByKey)
      ensures refusal.None? ==> opByKey == old(opByKey)[idem := |old(ops)|]
      ensures refusal.None? ==> var e := events[reviews[review].origin];
        ops == old(ops) + [L.Op(review, idem, e.tenant, e.user, e.workspace, action, reviews[review].revision, ref, target, compensates)]
    {
      if idem in opByKey {
        return Some(KeyTaken);
      }
      var e := events[reviews[review].origin];
      opByKey := opByKey[idem := |ops|];
      ops := ops + [L.Op(review, idem, e.tenant, e.user, e.workspace, action, reviews[review].revision, ref, target, compensates)];
      return None;
    }

    /** A refused statement undoes its whole transaction. */
    method Rollback(start: L.Ledger)
      modifies this
      ensures Tables() == start
    {
      events, receipts, reviews, ops, opByKey := start.events, start.receipts, start.reviews, start.ops, start.opByKey;
      rows, rowByOrigin, tombstones := start.rows, start.rowByOrigin, start.tombstones;
      crystals, externals, revision := start.crystals, start.externals, start.revision;
    }

    // ---- ledger transactions

    /** A reference that has a row is left alone; a new one is refused when its source event has a row. */
    method InsertConfirmedLifecycle(ref: FactId, row: L.Row) returns (refusal: Option<Problem>)
      modifies this`rows, this`rowByOrigin, this`crystals
      ensures refusal == if ref !in old(rows) && row.origin in old(rowByOrigin) then Some(OriginTaken) else None
      ensures rows == if ref in old(rows) || refusal.Some? then old(rows) else old(rows)[ref := row]
      ensures rowByOrigin == if ref in old(rows) || refusal.Some? then old(rowByOrigin) else old(rowByOrigin)[row.origin := ref]
      ensures crystals == if refusal.Some? then old(crystals) else L.MarkStale(old(crystals), row.binding)
    {
      if ref !in rows {
        if row.origin in rowByOrigin {
          return Some(OriginTaken);
        }
        rows := rows[ref := row];
        rowByOrigin := rowByOrigin[row.origin := ref];
      }
      MarkCrystalStale(row.binding);
      return None;
    }

    /** Only an active, unpinned row of the owner is superseded. */
    method MarkSuperseded(target: FactId, ref: FactId, tenant: string, user: string, rev: nat, binding: ScopeBinding)
      returns (refusal: Option<Problem>)
      modifies this`rows, this`tombstones, this`crystals
      ensures refusal.None? <==>
        L.OwnedRow(old(rows), target, tenant, user) && old(rows)[target].status == L.Active && !old(rows)[target].pinned
      ensures refusal.Some? ==> refusal == Some(TargetInvalid) && rows == old(rows) && tombstones == old(tombstones) && crystals == old(crystals)
      ensures refusal.None? ==>
        && rows == old(rows)[target := old(rows)[target].(status := L.Superseded, supersededBy := Some(ref), updated := rev)]
        && tombstones == L.PutTombstone(old(tombstones), target, tenant, user, rev)
        && crystals == L.MarkStale(old(crystals), binding)
    {
      if !L.OwnedRow(rows, target, tenant, user) || rows[target].status != L.Active || rows[target].pinned {
        return Some(TargetInvalid);
      }
      rows := rows[target := rows[target].(status := L.Superseded, supersededBy := Some(ref), updated := rev)];
      InsertTombstone(target, tenant, user, rev);
      MarkCrystalStale(binding);
      return None;
    }

    /** The row of the new fact, then the target's. */
    method InsertAndSupersede(ref: FactId, row: L.Row, target: Option<FactId>, tenant: string, user: string, rev: nat)
      returns (refusal: Option<Problem>)
      requires target != Some(ref)
      modifies this`rows, this`rowByOrigin, this`crystals, this`tombstones
      ensures refusal == RowRefusal(old(rows), old(rowByOrigin), ref, row.origin, target, tenant, user)
      ensures refusal.None? ==>
        && rows == L.ConfirmedRows(old(rows), ref, row, target, tenant, user, rev)
        && rowByOrigin == (if ref in old(rows) then old(rowByOrigin) else old(rowByOrigin)[row.origin := ref])
        && tombstones == L.ConfirmedTombstones(old(tombstones), target, tenant, user, rev)
        && crystals == L.MarkStale(old(crystals), row.binding)
    {
      refusal := InsertConfirmedLifecycle(ref, row);
      if refusal.None? && target.Some? {
        MarkingIsIdempotent(old(crystals), row.binding);
        refusal := MarkSuperseded(target.value, ref, tenant, user, rev, row.binding);
      }
    }

    method WriteConfirmation(q: ResolveRequest, payload: L.Payload, ref: FactId) returns (refusal: Option<Problem>)
      requires q.review < |reviews| && reviews[q.review].origin in events
      requires TargetOf(q) != Some(ref)
      modifies this
      ensures refusal == ConfirmRefusal(old(Tables()), q, ref)
      ensures Tables() == if refusal.Some? then old(Tables())
                          else L.CommitConfirm(old(Tables()), q.review, q.idem, q.action, payload, ref, TargetOf(q))
    {
      hide L.CommitConfirm, ConfirmRefusal;
      var start := Tables();
      refusal := ConfirmStatements(q, payload, ref);
      if refusal.Some? {
        Rollback(start);
      }
    }

    method ConfirmStatements(q: ResolveRequest, payload: L.Payload, ref: FactId) returns (refusal: Option<Problem>)
      requires q.review < |reviews| && reviews[q.review].origin in events
      requires TargetOf(q) != Some(ref)
      modifies this
      ensures refusal == ConfirmRefusal(old(Tables()), q, ref)
      ensures refusal.None? ==> Tables() == L.CommitConfirm(old(Tables()), q.review, q.idem, q.action, payload, ref, TargetOf(q))
    {
      hide L.ConfirmedRows, L.ConfirmedTombstones, L.BindingOf, L.MarkStale, L.Redirected, RowRefusal, ConfirmRefusal, ResolvedPayload;
      RefusalByStatement(Tables(), q, ref);
      var c, opId := reviews[q.review], |ops|;
      var e := events[c.origin];
      var rev := NextRevision();
      var row := L.Row(L.BindingOf(c.origin, e, payload), c.origin, payload.keys, payload.instruction, false, L.Active, None, rev);
      refusal := LogAndInsert(q, ref, row, rev);
      if refusal.None? {
        SettleCandidate(q.review, opId, ref, rev);
      }
    }

    /** The candidate is confirmed and its event leads to the fact. */
    method SettleCandidate(review: nat, opId: nat, ref: FactId, rev: nat)
      requires review < |reviews| && reviews[review].origin in events
      modifies this`reviews, this`events, this`externals
      ensures var c := old(reviews)[review];
        && reviews == old(reviews)[review := L.Review(c.origin, L.Confirmed, c.revision + 1, Some(opId))]
        && events == old(events)[c.origin :=
             old(events)[c.origin].(backendRef := Some(ref), result := Some(L.CandidateConfirmed), revision := Some(rev))]
        && externals == L.Redirected(old(externals), c.origin, ref)
    {
      hide L.Redirected;
      var c := reviews[review];
      PointEventAt(c.origin, ref, rev);
      reviews := reviews[review := L.Review(c.origin, L.Confirmed, c.revision + 1, Some(opId))];
    }

    /** The operation, then the rows. */
    method LogAndInsert(q: ResolveRequest, ref: FactId, row: L.Row, rev: nat) returns (refusal: Option<Problem>)
      requires q.review < |reviews| && reviews[q.review].origin in events
      requires TargetOf(q) != Some(ref)
      modifies this`ops, this`opByKey, this`rows, this`rowByOrigin, this`tombstones, this`crystals
      ensures var e := events[reviews[q.review].origin];
        && refusal == (if q.idem in old(opByKey) then Some(KeyTaken)
                       else RowRefusal(old(rows), old(rowByOrigin), ref, row.origin, TargetOf(q), e.tenant, e.user))
        && (refusal.None? ==>
              && ops == old(ops) + [L.Op(q.review, q.idem, e.tenant, e.user, e.workspace, q.action, reviews[q.review].revision, Some(ref), TargetOf(q), None)]
              && opByKey == old(opByKey)[q.idem := |old(ops)|]
              && rows == L.ConfirmedRows(old(rows), ref, row, TargetOf(q), e.tenant, e.user, rev)
              && rowByOrigin == (if ref in old(rows) then old(rowByOrigin) else old(rowByOrigin)[row.origin := ref])
              && tombstones == L.ConfirmedTombstones(old(tombstones), TargetOf(q), e.tenant, e.user, rev)
              && crystals == L.MarkStale(old(crystals), row.binding))
    {
      hide L.ConfirmedRows, L.ConfirmedTombstones, L.MarkStale, RowRefusal;
      var e := events[reviews[q.review].origin];
      refusal := RecordOperation(q.review, q.idem, q.action, Some(ref), TargetOf(q), None);
      if refusal.None? {
        refusal := InsertAndSupersede(ref, row, TargetOf(q), e.tenant, e.user, rev);
      }
    }

    /** The event and its external bindings now lead to the confirmed fact. */
    method PointEventAt(origin: EventKey, ref: FactId, rev: nat)
      requires origin in events
      modifies this`events, this`externals
      ensures events == old(events)[origin :=
        old(events)[origin].(backendRef := Some(ref), result := Some(L.CandidateConfirmed), revision := Some(rev))]
      ensures externals == L.Redirected(old(externals), origin, ref)
    {
      events := events[origin := events[origin].(backendRef := Some(ref), result := Some(L.CandidateConfirmed), revision := Some(rev))];
      externals := L.Redirected(externals, origin, ref);
    }

    method WriteClosure(review: nat, idem: string, action: L.Action) returns (refusal: Option<Problem>)
      requires review < |reviews| && reviews[review].origin in events
      modifies this
      ensures refusal == if idem in old(opByKey) then Some(KeyTaken) else None
      ensures Tables() == if refusal.Some? then old(Tables()) else L.CommitClose(old(Tables()), review, idem, action)
    {
      var start, c := Tables(), reviews[review];
      var rev := NextRevision();
      refusal := RecordOperation(review, idem, action, None, None, None);
      if refusal.Some? {
        Rollback(start);
        return;
      }
      var status := if action == L.Archive then L.ClosedArchived else L.ClosedRejected;
      reviews := reviews[review := L.Review(c.origin, status, c.revision + 1, Some(|start.ops|))];
    }

    method ArchiveCreated(ref: FactId, tenant: string, user: string, rev: nat)
      modifies this`rows, this`tombstones, this`crystals
      ensures rows == L.SetStatus(old(rows), ref, tenant, user, L.Archived, L.SupersededByOf(old(rows), ref), rev)
      ensures tombstones == L.PutTombstone(old(tombstones), ref, tenant, user, rev)
      ensures crystals == L.MarkStaleFor(old(crystals), old(rows), ref)
    {
      UpdateStatus(ref, tenant, user, L.Archived, L.SupersededByOf(rows, ref), rev);
      InsertTombstone(ref, tenant, user, rev);
      MarkBackendCrystalStale(ref);
    }

    /** Refused when there is no unrevoked tombstone of the owner to revoke. */
    method RestoreTarget(target: FactId, tenant: string, user: string, rev: nat) returns (refusal: Option<Problem>)
      modifies this`rows, this`tombstones, this`crystals
      ensures refusal == if L.Revocable(old(tombstones), target, tenant, user) then None else Some(TombstoneMissing)
      ensures refusal.None? ==>
        && rows == L.SetStatus(old(rows), target, tenant, user, L.Active, None, rev)
        && tombstones == old(tombstones)[target := old(tombstones)[target].(revoked := Some(rev))]
        && crystals == L.MarkStaleFor(old(crystals), old(rows), target)
    {
      UpdateStatus(target, tenant, user, L.Active, None, rev);
      var changed := RevokeTombstone(target, tenant, user, rev);
      if changed != 1 {
        return Some(TombstoneMissing);
      }
      MarkBackendCrystalStale(target);
      return None;
    }

    /** Both rows of the undone operation, the created one first. */
    method UndoRows(ghost start: L.Ledger, undone: L.Op, tenant: string, user: string, rev: nat) returns (refusal: Option<Problem>)
      requires start.rows == rows && start.tombstones == tombstones && start.crystals == crystals && rev == start.revision + 1
      modifies this`rows, this`tombstones, this`crystals
      ensures refusal == UndoRefusal(start.tombstones, undone, tenant, user, rev)
      ensures refusal.None? ==>
        && rows == L.RevertedRows(start, undone, tenant, user) && tombstones == L.RevertedTombstones(start, undone, tenant, user)
        && crystals == L.RevertedCrystals(start.crystals, start.rows, undone)
    {
      hide L.SetStatus, L.PutTombstone, L.MarkStaleFor, L.SupersededByOf;
      if undone.ref.Some? {
        ArchiveCreated(undone.ref.value, tenant, user, rev);
      }
      if undone.action == L.Supersession && undone.target.Some? {
        if undone.ref.Some? {
          StatusKeepsBinding(crystals, old(rows), undone.ref.value, tenant, user, L.Archived,
                             L.SupersededByOf(old(rows), undone.ref.value), rev, undone.target.value);
        }
        refusal := RestoreTarget(undone.target.value, tenant, user, rev);
        return;
      }
      return None;
    }

    method WriteRevert(q: RevertRequest) returns (refusal: Option<Problem>)
      requires q.review < |reviews| && reviews[q.review].origin in events && q.opId < |ops|
      modifies this
      ensures refusal == RevertRefusal(old(Tables()), q)
      ensures Tables() == if refusal.Some? then old(Tables()) else L.CommitRevert(old(Tables()), q.review, q.idem, q.opId)
    {
      hide L.CommitRevert, RevertRefusal;
      var start := Tables();
      refusal := RevertStatements(q);
      if refusal.Some? {
        Rollback(start);
      }
    }

    method RevertStatements(q: RevertRequest) returns (refusal: Option<Problem>)
      requires q.review < |reviews| && reviews[q.review].origin in events && q.opId < |ops|
      modifies this
      ensures refusal == RevertRefusal(old(Tables()), q)
      ensures refusal.None? ==> Tables() == L.CommitRevert(old(Tables()), q.review, q.idem, q.opId)
    {
      hide L.RevertedRows, L.RevertedTombstones, L.RevertedCrystals, UndoRefusal, RevertRefusal;
      RevertRefusalByStatement(Tables(), q);
      ghost var start := Tables();
      var c, undone, opId := reviews[q.review], ops[q.opId], |ops|;
      var e := events[c.origin];
      var rev := NextRevision();
      refusal := RecordOperation(q.review, q.idem, L.Revert, undone.ref, undone.target, Some(q.opId));
      if refusal.None? {
        refusal := UndoRows(start, undone, e.tenant, e.user, rev);
      }
      if refusal.None? {
        reviews := reviews[q.review := L.Review(c.origin, L.Open, c.revision + 1, Some(opId))];
      }
    }

    method WriteForgetting(ref: FactId, tenant: string, user: string)
      requires ref in rows
      modifies this
      ensures Tables() == L.CommitForget(old(Tables()), ref, tenant, user)
    {
      var rev := NextRevision();
      rows := rows[ref := rows[ref].(status := L.Archived, updated := rev)];
      InsertTombstone(ref, tenant, user, rev);
      MarkBackendCrystalStale(ref);
    }

    // ---- requests; `commits` is the number of database commits before a crash

    method Confirm(q: ResolveRequest, commits: nat) returns (answer: Answer)
      requires ResolveStop(Tables(), q).None? && q.action.CreatesFact()
      modifies this, backend
      ensures Outcome(Stores(), answer) == Resolve(old(Stores()), q, commits)
    {
      hide ResolveStop, L.CommitConfirm, ConfirmRefusal, B.Upsert;
      if commits == 0 {
        return Crashed;
      }
      var payload := ResolvedPayload(Tables(), q);
      var reply := backend.UpsertConfirmed(B.CreateKey(q.review, q.idem), q.who.tenant, payload.content);
      if reply.Fail? {
        return Refused(Backend(reply.error));
      }
      if q.action == L.Supersession {
        if commits == 1 {
          return Crashed;
        }
        var linked := backend.Supersede(B.SupersedeKey(q.review, q.idem), q.target.value, reply.ref.id);
        if linked.Fail? {
          return Refused(Backend(linked.error));
        }
      }
      if commits < ConfirmCommits(q) {
        return Crashed;
      }
      answer := Done(|ops|);
      var refusal := WriteConfirmation(q, payload, reply.ref.id);
      if refusal.Some? {
        return Refused(refusal.value);
      }
    }

    method ResolveReview(q: ResolveRequest, commits: nat) returns (answer: Answer)
      requires Valid()
      modifies this, backend
      ensures Outcome(Stores(), answer) == Resolve(old(Stores()), q, commits)
      ensures Valid()
      ensures old(InStep()) && commits >= 3 ==> (InStep() <==> !S.ResolveStrands(old(Stores()), q))
    {
      hide A.StoreOk, S.Consistent, S.ResolveStrands, ConfirmBrain, L.CommitConfirm, L.CommitClose, ConfirmRefusal;
      ResolveKeeps(Stores(), q, commits);
      var stop := ResolveStop(Tables(), q);
      if stop.Some? {
        return stop.value;
      }
      if q.action.CreatesFact() {
        answer := Confirm(q, commits);
        return;
      }
      if commits == 0 {
        return Crashed;
      }
      answer := Done(|ops|);
      var refusal := WriteClosure(q.review, q.idem, q.action);
      if refusal.Some? {
        return Refused(refusal.value);
      }
    }

    method UndoInBackend(q: RevertRequest, undone: L.Op) returns (reply: B.Reply)
      modifies backend
      ensures B.Step(backend.State(), reply) == RevertBrain(old(backend.State()), q, undone)
    {
      reply := B.Ok(B.FactRef(0));
      if undone.action.CreatesFact() && undone.ref.Some? {
        if undone.action == L.Supersession && undone.target.Some? {
          reply := backend.RestoreSuperseded(B.RestoreKey(q.review, q.idem), undone.target.value, undone.ref.value);
        } else {
          reply := backend.SetExpiredState(B.ArchiveKey(q.review, q.idem), undone.ref.value, B.ArchiveOp);
        }
      }
    }

    method RevertReview(q: RevertRequest, commits: nat) returns (answer: Answer)
      requires Valid()
      modifies this, backend
      ensures Outcome(Stores(), answer) == RevertOp(old(Stores()), q, commits)
      ensures Valid()
      ensures old(InStep()) && commits >= 2 ==> (InStep() <==> !S.RevertStrands(old(Stores()), q))
    {
      hide A.StoreOk, S.Consistent, S.RevertStrands, L.CommitRevert, RevertRefusal, RevertBrain, RevertStop;
      RevertKeeps(Stores(), q, commits);
      var stop := RevertStop(Tables(), q);
      if stop.Some? {
        return stop.value;
      }
      if commits == 0 {
        return Crashed;
      }
      var reply := UndoInBackend(q, ops[q.opId]);
      if reply.Fail? {
        return Refused(Backend(reply.error));
      }
      if commits < RevertCommits(ops[q.opId]) {
        return Crashed;
      }
      answer := Done(|ops|);
      var refusal := WriteRevert(q);
      if refusal.Some? {
        return Refused(refusal.value);
      }
    }

    method ForgetMemory(who: L.Principal, ref: FactId, commits: nat) returns (answer: Answer)
      requires Valid()
      modifies this, backend
      ensures Outcome(Stores(), answer) == Forget(old(Stores()), who, ref, commits)
      ensures Valid()
      ensures old(InStep()) && commits >= 2 ==> InStep()
    {
      hide A.StoreOk, S.Consistent, L.CommitForget, B.SetExpired;
      ForgetKeeps(Stores(), who, ref, commits);
      if !L.OwnedRow(rows, ref, who.tenant, who.user) || rows[ref].binding.workspace != who.workspace {
        return Refused(MemoryNotFound);
      }
      if rows[ref].status != L.Active {
        return Settled(rows[ref].status);
      }
      if commits == 0 {
        return Crashed;
      }
      var reply := backend.SetExpiredState(B.ForgetKey(ref, who.workspace), ref, B.ArchiveOp);
      if reply.Fail? {
        return Refused(Backend(reply.error));
      }
      if commits == 1 {
        return Crashed;
      }
      WriteForgetting(ref, who.tenant, who.user);
      return Settled(L.Archived);
    }

    method RebuildCrystal(who: L.Principal, scope: Scope, ns: string, idem: string, commits: nat) returns (answer: Answer)
      requires Valid()
      modifies this, backend
      ensures Outcome(Stores(), answer) == Lifecycle.RebuildCrystal(old(Stores()), who, scope, ns, idem, commits)
      ensures Valid()
      ensures old(InStep()) ==> InStep()
    {
      hide A.StoreOk, S.Consistent, B.Rebuild, L.Sources;
      RebuildKeeps(Stores(), who, scope, ns, idem, commits);
      var binding := ScopeBinding(who.tenant, who.user, who.workspace, scope, ns);
      var refs := L.Sources(rows, binding);
      if |refs| < 2 {
        return Refused(SourceCount);
      }
      if commits == 0 {
        return Crashed;
      }
      var reply := backend.RebuildCrystal(B.CrystalKey(binding, idem), who.tenant, refs, binding);
      if reply.Fail? {
        return Refused(Backend(reply.error));
      }
      if commits == 1 {
        return Crashed;
      }
      var rev := NextRevision();
      crystals := crystals[binding := L.Crystal(true, refs, rev)];
      return Settled(L.Active);
    }

    // ---- events

    method RecordProposedEvent(who: L.Principal, id: string, scope: Scope, payload: L.Payload) returns (reply: Receiving)
      requires Valid()
      modifies this`events
      ensures SubmitOutcome(Stores(), reply) == Submit(old(Stores()), who, id, scope, payload)
      ensures Valid()
      ensures old(InStep()) ==> InStep()
    {
      hide A.StoreOk, S.Consistent;
      SubmitKeeps(Stores(), who, id, scope, payload);
      if payload.sensitive {
        return Rejecting(SensitiveContent);
      }
      var key := EventKey(who.device, id);
      if key !in events {
        var e := L.Event(who.tenant, who.user, who.agent, who.workspace, scope, payload, L.Pending, None, None, None, 0);
        events := events[key := e];
        return Accepted;
      }
      var e := events[key];
      if e.payload != payload || e.workspace != who.workspace || e.scope != scope {
        return Rejecting(EventIdReuse);
      }
      if e.status == L.Applied || e.status == L.Rejected {
        if key !in receipts {
          return Rejecting(ReceiptMissing);
        }
        return Fixed(receipts[key]);
      }
      return InProgress(e.status);
    }

    method InsertReceipt(key: EventKey, receipt: L.Receipt)
      modifies this`receipts
      ensures receipts == L.PutReceipt(old(receipts), key, receipt)
    {
      if key !in receipts {
        receipts := receipts[key := receipt];
      }
    }

    method RegisterExternalBinding(key: EventKey, e: L.Event, ref: Option<FactId>)
      modifies this`externals
      ensures externals == L.RegisterExternal(old(externals), key, e, ref)
    {
      if e.payload.provenance.Some? {
        var x := L.ExternalKeyOf(e, e.payload.provenance.value);
        if x in externals {
          if ref.Some? {
            externals := externals[x := externals[x].(backendRef := ref)];
          } else {
            externals := externals[x := externals[x]];
          }
        } else {
          externals := externals[x := L.External(key, ref)];
        }
      }
    }

    method CompleteSourceDuplicate(key: EventKey, ref: Option<FactId>)
      requires key in events
      modifies this
      ensures Tables() == L.CommitDuplicate(old(Tables()), key, ref)
    {
      var rev := NextRevision();
      events := events[key := events[key].(status := L.Applied, result := Some(L.SourceDuplicate), backendRef := ref, revision := Some(rev))];
      InsertReceipt(key, L.Receipt(rev, L.SourceDuplicate, ref, rev));
    }

    method CreateReviewCandidate(key: EventKey)
      requires key in events
      modifies this
      ensures Tables() == L.CommitReview(old(Tables()), key)
    {
      var e := events[key];
      var rev := NextRevision();
      reviews := reviews + [L.Review(key, L.Open, 1, None)];
      events := events[key := e.(status := L.Applied, result := Some(L.CandidateCreated), revision := Some(rev))];
      InsertReceipt(key, L.Receipt(rev, L.CandidateCreated, None, rev));
      RegisterExternalBinding(key, e, None);
    }

    method WriteApplied(key: EventKey, ref: FactId) returns (refusal: Option<Problem>)
      requires key in events
      modifies this
      ensures refusal == if ref !in old(rows) && key in old(rowByOrigin) then Some(OriginTaken) else None
      ensures Tables() == if refusal.Some? then old(Tables()) else L.CommitApplied(old(Tables()), key, ref)
    {
      hide L.CommitApplied;
      var start := Tables();
      refusal := ApplyStatements(key, ref);
      if refusal.Some? {
        Rollback(start);
      }
    }

    method ApplyStatements(key: EventKey, ref: FactId) returns (refusal: Option<Problem>)
      requires key in events
      modifies this
      ensures refusal == if ref !in old(rows) && key in old(rowByOrigin) then Some(OriginTaken) else None
      ensures refusal.None? ==> Tables() == L.CommitApplied(old(Tables()), key, ref)
    {
      hide L.BindingOf, L.MarkStale, L.PutReceipt, L.RegisterExternal;
      var e := events[key];
      var rev := NextRevision();
      events := events[key := e.(status := L.Applied, result := Some(L.CandidateConfirmed), backendRef := Some(ref), revision := Some(rev))];
      refusal := InsertConfirmedLifecycle(ref, L.Row(L.BindingOf(key, e, e.payload), key, e.payload.keys, false, false, L.Active, None, rev));
      if refusal.None? {
        RegisterExternalBinding(key, e, Some(ref));
        InsertReceipt(key, L.Receipt(rev, L.CandidateConfirmed, Some(ref), rev));
      }
    }

    /** One pass of the worker over a due event; `luck` is what decryption and GBrain's own checks turn out to be. */
    method ReconcileOnce(key: EventKey, luck: Luck, commits: nat) returns (answer: Answer)
      requires Due(Tables(), key)
      requires Valid()
      modifies this, backend
      ensures Outcome(Stores(), answer) == WorkerPass(old(Stores()), key, luck, commits)
      ensures Valid()
      ensures old(InStep()) ==> InStep()
    {
      hide A.StoreOk, S.Consistent, L.CommitApplied, L.CommitReview, L.CommitDuplicate, B.Upsert;
      WorkerKeeps(Stores(), key, luck, commits);
      var e := events[key];
      if commits == 0 {
        return Crashed;
      }
      answer := Done(0);
      if luck == Unreadable {
        events := events[key := e.(status := L.DeadLetter)];
        return;
      }
      if e.payload.provenance.Some? && L.ExternalKeyOf(e, e.payload.provenance.value) in externals {
        CompleteSourceDuplicate(key, externals[L.ExternalKeyOf(e, e.payload.provenance.value)].backendRef);
        return;
      }
      if e.payload.instruction || !e.payload.userExplicit {
        CreateReviewCandidate(key);
        return;
      }
      if luck == TextRejected {
        events := events[key := e.(status := L.DeadLetter)];
        return;
      }
      var reply := B.Fail(B.StateConflict);
      if luck == Decrypts {
        reply := backend.UpsertConfirmed(B.WorkerKey(key), e.tenant, e.payload.content);
      }
      if reply.Fail? {
        events := events[key := e.(status := L.Retryable, retries := e.retries + 1)];
        return;
      }
      if commits == 1 {
        return Crashed;
      }
      var refusal := WriteApplied(key, reply.ref.id);
      if refusal.Some? {
        return Refused(refusal.value);
      }
    }
  }
}
