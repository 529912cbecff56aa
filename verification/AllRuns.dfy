/** Invariants of every run of requests over both stores, with crashes allowed between any two commits. */
module AllRuns {
  import opened Names
  import opened GBrain
  import opened Ledger
  import opened Lifecycle
  import opened LedgerInvariants

  // ---- idempotency keys and facts

  /** Bindings and facts are in bijection through the key a fact was created under. */
  ghost predicate BindingsMatch(b: Brain) {
    && (forall k <- b.bindings :: (k.CreateKey? || k.WorkerKey?) && b.bindings[k] < |b.facts| && b.facts[b.bindings[k]].session == k)
    && (forall f | 0 <= f < |b.facts| :: b.facts[f].session in b.bindings && b.bindings[b.facts[f].session] == f)
    && (forall k <- b.operations :: !k.CreateKey? && !k.WorkerKey? && b.operations[k].kind != TombstoneOp)
  }

  /** Where a fact bound under a gateway key stands in the ledger. */
  ghost predicate KeyPlaced(l: Ledger, b: Brain, k: Key)
    requires k in b.bindings && b.bindings[k] < |b.facts|
  {
    var f := b.bindings[k];
    match k
    case CreateKey(v, idem) =>
      && v < |l.reviews| && l.reviews[v].origin in l.events && b.facts[f].source == l.events[l.reviews[v].origin].tenant
      && (f in l.rows ==> idem in l.opByKey && l.opByKey[idem] < |l.ops| && l.ops[l.opByKey[idem]].review == v)
    case WorkerKey(origin) =>
      && origin in l.events && b.facts[f].source == l.events[origin].tenant
      && (f in l.rows ==> l.events[origin].status == Applied)
    case _ => false
  }

  ghost predicate KeysMatch(l: Ledger, b: Brain) {
    && BindingsMatch(b)
    && (forall k <- b.bindings :: KeyPlaced(l, b, k))
    && (forall r <- l.rows :: r < |b.facts| && b.facts[r].source == l.rows[r].binding.tenant)
    && (forall f | 0 <= f < |b.facts| :: f in l.rows || b.facts[f].Live())
  }

  ghost predicate StoreOk(s: Store) {
    LedgerOk(s.ledger) && KeysMatch(s.ledger, s.brain)
  }

  lemma UpsertKeepsKeys(l: Ledger, b: Brain, key: Key, source: string, content: string)
    requires KeysMatch(l, b)
    requires match key
      case CreateKey(v, _) => v < |l.reviews| && l.reviews[v].origin in l.events && source == l.events[l.reviews[v].origin].tenant
      case WorkerKey(origin) => origin in l.events && source == l.events[origin].tenant
      case _ => false
    ensures var step := Upsert(b, key, source, content);
      && KeysMatch(l, step.brain) && step.reply.Ok? && step.reply.ref.id < |step.brain.facts|
      && key in step.brain.bindings && step.brain.bindings[key] == step.reply.ref.id
      && step.brain.operations == b.operations
      && |b.facts| <= |step.brain.facts| && step.brain.facts[..|b.facts|] == b.facts
  {
    assert b.facts[..|b.facts|] == b.facts;
    assert key !in b.operations;
    if key !in b.bindings {
      hide KeysMatch;
      NewFactKeepsKeys(l, b, key, Fact(source, content, key, false, None));
    }
  }

  lemma NewFactKeepsKeys(l: Ledger, b: Brain, key: Key, fact: Fact)
    requires KeysMatch(l, b) && key !in b.bindings && key !in b.operations && fact.session == key && fact.Live()
    requires match key
      case CreateKey(v, _) => v < |l.reviews| && l.reviews[v].origin in l.events && fact.source == l.events[l.reviews[v].origin].tenant
      case WorkerKey(origin) => origin in l.events && fact.source == l.events[origin].tenant
      case _ => false
    ensures KeysMatch(l, b.(facts := b.facts + [fact], bindings := b.bindings[key := |b.facts|]))
  {
    hide KeyPlaced, BindingsMatch;
    var b' := b.(facts := b.facts + [fact], bindings := b.bindings[key := |b.facts|]);
    NewFactBinds(b, b', key, fact);
    assert forall r <- l.rows :: r < |b.facts|;
    forall k <- b'.bindings ensures b'.bindings[k] < |b'.facts| && KeyPlaced(l, b', k) {
      BoundBelow(b, k);
      NewFactPlaces(l, b, b', key, fact, k);
    }
  }

  lemma BoundBelow(b: Brain, k: Key)
    requires BindingsMatch(b)
    ensures k in b.bindings ==> b.bindings[k] < |b.facts|
  {
  }

  lemma NewFactBinds(b: Brain, b': Brain, key: Key, fact: Fact)
    requires BindingsMatch(b) && key !in b.bindings && key !in b.operations && fact.session == key && (key.CreateKey? || key.WorkerKey?)
    requires b' == b.(facts := b.facts + [fact], bindings := b.bindings[key := |b.facts|])
    ensures BindingsMatch(b')
  {
  }

  lemma NewFactPlaces(l: Ledger, b: Brain, b': Brain, key: Key, fact: Fact, k: Key)
    requires BindingsMatch(b) && (k in b.bindings ==> KeyPlaced(l, b, k)) && key !in b.bindings && |b.facts| !in l.rows
    requires match key
      case CreateKey(v, _) => v < |l.reviews| && l.reviews[v].origin in l.events && fact.source == l.events[l.reviews[v].origin].tenant
      case WorkerKey(origin) => origin in l.events && fact.source == l.events[origin].tenant
      case _ => false
    requires b' == b.(facts := b.facts + [fact], bindings := b.bindings[key := |b.facts|]) && k in b'.bindings
    ensures b'.bindings[k] < |b'.facts| && KeyPlaced(l, b', k)
  {
  }

  /** A GBrain transaction that at most changes the state of the given facts and records one operation. */
  ghost predicate StateChange(b: Brain, b': Brain, ids: set<FactId>) {
    && b'.bindings == b.bindings && |b'.facts| == |b.facts|
    && (forall f | 0 <= f < |b.facts| ::
      && b'.facts[f].source == b.facts[f].source && b'.facts[f].session == b.facts[f].session
      && (f in ids || b'.facts[f] == b.facts[f]))
    && (forall k <- b'.operations ::
      || (k in b.operations && b'.operations[k] == b.operations[k])
      || (!k.CreateKey? && !k.WorkerKey? && b'.operations[k].kind != TombstoneOp))
  }

  lemma SupersedeChanges(b: Brain, key: Key, oldId: FactId, newId: FactId)
    requires !key.CreateKey? && !key.WorkerKey?
    ensures StateChange(b, Supersede(b, key, oldId, newId).brain, {oldId})
  {
  }

  lemma ArchiveChanges(b: Brain, key: Key, id: FactId)
    requires !key.CreateKey? && !key.WorkerKey?
    ensures StateChange(b, SetExpired(b, key, id, ArchiveOp).brain, {id})
  {
  }

  lemma RestoreChanges(b: Brain, key: Key, oldId: FactId, newId: FactId)
    requires !key.CreateKey? && !key.WorkerKey?
    ensures StateChange(b, Restore(b, key, oldId, newId).brain, {oldId, newId})
  {
  }

  lemma RebuildChanges(b: Brain, key: Key, source: string, refs: set<FactId>, binding: ScopeBinding)
    requires !key.CreateKey? && !key.WorkerKey?
    ensures StateChange(b, Rebuild(b, key, source, refs, binding).brain, {})
  {
  }

  lemma StateChangeKeepsKeys(l: Ledger, b: Brain, b': Brain, ids: set<FactId>)
    requires KeysMatch(l, b) && StateChange(b, b', ids) && ids <= l.rows.Keys
    ensures KeysMatch(l, b')
  {
    forall k <- b'.bindings ensures KeyPlaced(l, b', k) {
      assert KeyPlaced(l, b, k);
    }
  }

  /** Ledger transactions that add no lifecycle row. */
  lemma RowlessKeepsKeys(l: Ledger, l': Ledger, b: Brain)
    requires KeysMatch(l, b)
    requires l'.rows.Keys == l.rows.Keys && forall r <- l.rows :: l'.rows[r].binding == l.rows[r].binding
    requires forall k <- l.events :: k in l'.events && l'.events[k].tenant == l.events[k].tenant
               && (l.events[k].status == Applied ==> l'.events[k].status == Applied)
    requires |l.reviews| <= |l'.reviews| && forall v | 0 <= v < |l.reviews| :: l'.reviews[v].origin == l.reviews[v].origin
    requires |l.ops| <= |l'.ops| && forall i | 0 <= i < |l.ops| :: l'.ops[i] == l.ops[i]
    requires forall k <- l.opByKey :: k in l'.opByKey && l'.opByKey[k] == l.opByKey[k]
    ensures KeysMatch(l', b)
  {
    forall k <- b.bindings ensures KeyPlaced(l', b, k) {
      assert KeyPlaced(l, b, k);
    }
  }

  // ---- confirmations

  lemma ConfirmBrainKeepsKeys(l: Ledger, b: Brain, q: ResolveRequest, commits: nat)
    requires KeysMatch(l, b) && ResolveStop(l, q).None? && q.action.CreatesFact() && commits > 0
    ensures var step := ConfirmBrain(l, b, q, commits);
      && KeysMatch(l, step.brain)
      && CreateKey(q.review, q.idem) in step.brain.bindings
      && (step.reply.Ok? ==> step.brain.bindings[CreateKey(q.review, q.idem)] == step.reply.ref.id)
  {
    hide KeysMatch, Upsert, Supersede;
    var source, content := q.who.tenant, ResolvedPayload(l, q).content;
    UpsertKeepsKeys(l, b, CreateKey(q.review, q.idem), source, content);
    var created := Upsert(b, CreateKey(q.review, q.idem), source, content);
    if q.action == Supersession && commits > 1 {
      LinkKeepsKeys(l, created.brain, SupersedeKey(q.review, q.idem), q.target.value, created.reply.ref.id);
    }
  }

  lemma LinkKeepsKeys(l: Ledger, b: Brain, key: Key, oldId: FactId, newId: FactId)
    requires KeysMatch(l, b) && key.SupersedeKey? && oldId in l.rows
    ensures KeysMatch(l, Supersede(b, key, oldId, newId).brain) && Supersede(b, key, oldId, newId).brain.bindings == b.bindings
  {
    SupersedeChanges(b, key, oldId, newId);
    StateChangeKeepsKeys(l, b, Supersede(b, key, oldId, newId).brain, {oldId});
  }

  /** A reference a confirmation is about to commit has no lifecycle row yet, so ON CONFLICT (backend_ref) never applies. */
  lemma ConfirmIsReady(l: Ledger, b: Brain, q: ResolveRequest, ref: FactId)
    requires KeysMatch(l, b) && LogsAlternate(l) && ResolveStop(l, q).None? && q.action.CreatesFact()
    requires CreateKey(q.review, q.idem) in b.bindings && b.bindings[CreateKey(q.review, q.idem)] == ref
    requires ConfirmRefusal(l, q, ref).None?
    ensures ConfirmReady(l, q.review, q.idem, q.action, ResolvedPayload(l, q), ref, if q.action == Supersession then q.target else None)
  {
    assert KeyPlaced(l, b, CreateKey(q.review, q.idem));
    assert ReviewMatchesLog(l, q.review);
  }

  lemma ConfirmedKeepsKeys(l: Ledger, b: Brain, review: nat, idem: string, action: Action, payload: Payload, ref: FactId,
                           target: Option<FactId>)
    requires KeysMatch(l, b) && ConfirmReady(l, review, idem, action, payload, ref, target)
    requires CreateKey(review, idem) in b.bindings && b.bindings[CreateKey(review, idem)] == ref
    ensures KeysMatch(CommitConfirm(l, review, idem, action, payload, ref, target), b)
  {
    hide KeysMatch, KeyPlaced, Redirected, ConfirmedTombstones, MarkStale;
    ConfirmedRowsKeepOwners(l, review, idem, action, payload, ref, target);
    NewRowKeepsKeys(l, CommitConfirm(l, review, idem, action, payload, ref, target), b, review, idem, ref);
  }

  lemma NewRowKeepsKeys(l: Ledger, l': Ledger, b: Brain, review: nat, idem: string, ref: FactId)
    requires KeysMatch(l, b) && review < |l.reviews| && l.reviews[review].origin in l.events
    requires CreateKey(review, idem) in b.bindings && b.bindings[CreateKey(review, idem)] == ref
    requires l'.rows.Keys == l.rows.Keys + {ref} && forall r <- l.rows :: l'.rows[r].binding == l.rows[r].binding
    requires l'.rows[ref].binding.tenant == l.events[l.reviews[review].origin].tenant
    requires forall k <- l.events :: k in l'.events && l'.events[k].tenant == l.events[k].tenant && l'.events[k].status == l.events[k].status
    requires |l.reviews| == |l'.reviews| && forall v | 0 <= v < |l.reviews| :: l'.reviews[v].origin == l.reviews[v].origin
    requires |l'.ops| == |l.ops| + 1 && forall i | 0 <= i < |l.ops| :: l'.ops[i] == l.ops[i]
    requires l'.ops[|l.ops|].review == review && idem !in l.opByKey && l'.opByKey == l.opByKey[idem := |l.ops|]
    ensures KeysMatch(l', b)
  {
    hide KeyPlaced, BindingsMatch;
    CreatedSource(l, b, review, idem);
    forall k <- b.bindings ensures b.bindings[k] < |b.facts| && KeyPlaced(l', b, k) {
      BoundBelow(b, k);
      assert KeyPlaced(l, b, k);
      NewRowPlaces(l, l', b, review, idem, ref, k);
    }
  }

  lemma CreatedSource(l: Ledger, b: Brain, review: nat, idem: string)
    requires KeysMatch(l, b) && CreateKey(review, idem) in b.bindings
    ensures var ref := b.bindings[CreateKey(review, idem)];
      && ref < |b.facts| && review < |l.reviews| && l.reviews[review].origin in l.events
      && b.facts[ref].source == l.events[l.reviews[review].origin].tenant
  {
    assert KeyPlaced(l, b, CreateKey(review, idem));
  }

  /** A key is placed after the new row as before it; the key of the row itself now belongs to the new operation. */
  lemma NewRowPlaces(l: Ledger, l': Ledger, b: Brain, review: nat, idem: string, ref: FactId, k: Key)
    requires BindingsMatch(b) && k in b.bindings && KeyPlaced(l, b, k)
    requires CreateKey(review, idem) in b.bindings && b.bindings[CreateKey(review, idem)] == ref
    requires l'.rows.Keys == l.rows.Keys + {ref}
    requires forall k <- l.events :: k in l'.events && l'.events[k].tenant == l.events[k].tenant && l'.events[k].status == l.events[k].status
    requires |l.reviews| == |l'.reviews| && forall v | 0 <= v < |l.reviews| :: l'.reviews[v].origin == l.reviews[v].origin
    requires |l'.ops| == |l.ops| + 1 && forall i | 0 <= i < |l.ops| :: l'.ops[i] == l.ops[i]
    requires l'.ops[|l.ops|].review == review && idem !in l.opByKey && l'.opByKey == l.opByKey[idem := |l.ops|]
    ensures KeyPlaced(l', b, k)
  {
    assert b.bindings[k] == ref ==> k == CreateKey(review, idem);
  }

  lemma ResolveKeepsStore(s: Store, q: ResolveRequest, commits: nat)
    requires StoreOk(s)
    ensures StoreOk(Resolve(s, q, commits).store)
  {
    hide LedgerOk, KeysMatch, ConfirmBrain, CommitConfirm, CommitClose, ConfirmRefusal, ResolveStop;
    var l := s.ledger;
    if ResolveStop(l, q).None? && commits > 0 {
      if q.action.CreatesFact() {
        ConfirmKeepsStore(s, q, commits);
      } else if q.idem !in l.opByKey {
        OpenWhenResolved(l, q);
        CloseKeepsLedger(l, q.review, q.idem, q.action);
        ClosedKeepsKeys(l, s.brain, q.review, q.idem, q.action);
      }
    }
  }

  lemma OpenWhenResolved(l: Ledger, q: ResolveRequest)
    requires ResolveStop(l, q).None?
    ensures l.reviews[q.review].status == Open
  {
  }

  lemma ClosedKeepsKeys(l: Ledger, b: Brain, review: nat, idem: string, action: Action)
    requires KeysMatch(l, b) && review < |l.reviews| && l.reviews[review].origin in l.events && idem !in l.opByKey
    ensures KeysMatch(CommitClose(l, review, idem, action), b)
  {
    hide KeysMatch;
    RowlessKeepsKeys(l, CommitClose(l, review, idem, action), b);
  }

  lemma ConfirmKeepsStore(s: Store, q: ResolveRequest, commits: nat)
    requires StoreOk(s) && ResolveStop(s.ledger, q).None? && q.action.CreatesFact() && commits > 0
    ensures StoreOk(Resolve(s, q, commits).store)
  {
    hide KeysMatch, ConfirmBrain, CommitConfirm, ResolveStop, ConfirmReady;
    var l := s.ledger;
    ConfirmBrainKeepsKeys(l, s.brain, q, commits);
    var step := ConfirmBrain(l, s.brain, q, commits);
    if step.reply.Ok? && commits >= ConfirmCommits(q) && ConfirmRefusal(l, q, step.reply.ref.id).None? {
      var target := if q.action == Supersession then q.target else None;
      ConfirmIsReady(l, step.brain, q, step.reply.ref.id);
      ConfirmKeepsLedger(l, q.review, q.idem, q.action, ResolvedPayload(l, q), step.reply.ref.id, target);
      ConfirmedKeepsKeys(l, step.brain, q.review, q.idem, q.action, ResolvedPayload(l, q), step.reply.ref.id, target);
    }
  }

  // ---- reverts and forgetting

  /** Once revert's own checks pass, neither "already reverted" nor "tombstone missing" can stop it. */
  lemma RevertIsReady(l: Ledger, q: RevertRequest)
    requires LedgerOk(l) && RevertStop(l, q).None? && q.idem !in l.opByKey
    ensures RevertReady(l, q.review, q.idem, q.opId) && RevertRefusal(l, q).None?
  {
    TombstoneNeverMissing(l, q.review, q.idem, q.opId);
  }

  lemma AlreadyRevertedNeverFires(l: Ledger, review: nat, opId: nat)
    requires LogsAlternate(l) && review < |l.reviews| && l.reviews[review].lastOp == Some(opId)
    requires opId < |l.ops| && l.ops[opId].action != Revert
    ensures !AlreadyCompensated(l, opId)
  {
    assert ReviewMatchesLog(l, review);
    if AlreadyCompensated(l, opId) {
      var i :| 0 <= i < |l.ops| && l.ops[i].compensates == Some(opId) && l.ops[i].action == Revert;
      LoggedOp(l, i);
    }
  }

  lemma LoggedOp(l: Ledger, i: nat)
    requires LogsAlternate(l) && i < |l.ops|
    ensures OpInLog(l, i)
  {
  }

  lemma RevertKeepsStore(s: Store, q: RevertRequest, commits: nat)
    requires StoreOk(s)
    ensures StoreOk(RevertOp(s, q, commits).store)
  {
    hide LedgerOk, KeysMatch, RevertBrain, CommitRevert, RevertRefusal, RevertStop, RevertReady;
    var l := s.ledger;
    if RevertStop(l, q).None? && commits > 0 {
      EffectsOfLedger(l);
      var step := RevertBrain(s.brain, q, l.ops[q.opId]);
      RevertBrainKeepsKeys(l, s.brain, q);
      if step.reply.Ok? && commits >= RevertCommits(l.ops[q.opId]) && RevertRefusal(l, q).None? {
        RefusedTaken(l, q);
        RevertIsReady(l, q);
        RevertKeepsLedger(l, q.review, q.idem, q.opId);
        RevertedKeepsKeys(l, step.brain, q.review, q.idem, q.opId);
      }
    }
  }

  lemma EffectsOfLedger(l: Ledger)
    requires LedgerOk(l)
    ensures EffectsMatch(l)
  {
    hide EffectsMatch;
  }

  lemma RefusedTaken(l: Ledger, q: RevertRequest)
    requires RevertStop(l, q).None? && RevertRefusal(l, q).None?
    ensures q.idem !in l.opByKey
  {
    hide RevertStop;
  }

  lemma RevertBrainKeepsKeys(l: Ledger, b: Brain, q: RevertRequest)
    requires KeysMatch(l, b) && EffectsMatch(l) && RevertStop(l, q).None?
    ensures KeysMatch(l, RevertBrain(b, q, l.ops[q.opId]).brain)
  {
    var undone := l.ops[q.opId];
    assert EffectRecorded(l, undone);
    if undone.action == Supersession {
      RestoreChanges(b, RestoreKey(q.review, q.idem), undone.target.value, undone.ref.value);
      StateChangeKeepsKeys(l, b, RevertBrain(b, q, undone).brain, {undone.target.value, undone.ref.value});
    } else if undone.ref.Some? {
      ArchiveKeepsKeys(l, b, ArchiveKey(q.review, q.idem), undone.ref.value);
    }
  }

  lemma ArchiveKeepsKeys(l: Ledger, b: Brain, key: Key, id: FactId)
    requires KeysMatch(l, b) && !key.CreateKey? && !key.WorkerKey? && id in l.rows
    ensures KeysMatch(l, SetExpired(b, key, id, ArchiveOp).brain)
  {
    ArchiveChanges(b, key, id);
    StateChangeKeepsKeys(l, b, SetExpired(b, key, id, ArchiveOp).brain, {id});
  }

  lemma RevertedKeepsKeys(l: Ledger, b: Brain, review: nat, idem: string, opId: nat)
    requires KeysMatch(l, b) && RevertReady(l, review, idem, opId)
    ensures KeysMatch(CommitRevert(l, review, idem, opId), b)
  {
    hide KeysMatch;
    RevertedKeepsOrigins(l, review, idem, opId);
    RowlessKeepsKeys(l, CommitRevert(l, review, idem, opId), b);
  }

  lemma ForgetKeepsStore(s: Store, who: Principal, ref: FactId, commits: nat)
    requires StoreOk(s)
    ensures StoreOk(Forget(s, who, ref, commits).store)
  {
    hide LedgerOk, KeysMatch;
    var l := s.ledger;
    if OwnedRow(l.rows, ref, who.tenant, who.user) && l.rows[ref].status == Active && commits > 0 {
      ArchiveKeepsKeys(l, s.brain, ForgetKey(ref, who.workspace), ref);
      ForgetKeepsLedger(l, ref, who.tenant, who.user);
      ForgottenKeepsKeys(l, SetExpired(s.brain, ForgetKey(ref, who.workspace), ref, ArchiveOp).brain, ref, who.tenant, who.user);
    }
  }

  lemma ForgottenKeepsKeys(l: Ledger, b: Brain, ref: FactId, tenant: string, user: string)
    requires KeysMatch(l, b) && ref in l.rows
    ensures KeysMatch(CommitForget(l, ref, tenant, user), b)
  {
    RowlessKeepsKeys(l, CommitForget(l, ref, tenant, user), b);
  }

  lemma RebuildKeepsStore(s: Store, who: Principal, scope: Scope, ns: string, idem: string, commits: nat)
    requires StoreOk(s)
    ensures StoreOk(RebuildCrystal(s, who, scope, ns, idem, commits).store)
  {
    hide LedgerOk, KeysMatch;
    var binding := ScopeBinding(who.tenant, who.user, who.workspace, scope, ns);
    RebuildKeepsLedger(s.ledger, binding);
    RebuiltKeepsKeys(s.ledger, s.brain, CrystalKey(binding, idem), who.tenant, binding);
  }

  lemma RebuiltKeepsKeys(l: Ledger, b: Brain, key: Key, source: string, binding: ScopeBinding)
    requires KeysMatch(l, b) && key.CrystalKey?
    ensures var b' := Rebuild(b, key, source, Sources(l.rows, binding), binding).brain;
      KeysMatch(l, b') && KeysMatch(CommitRebuild(l, binding, Sources(l.rows, binding)), b')
  {
    var b' := Rebuild(b, key, source, Sources(l.rows, binding), binding).brain;
    RebuildChanges(b, key, source, Sources(l.rows, binding), binding);
    StateChangeKeepsKeys(l, b, b', {});
    RowlessKeepsKeys(l, CommitRebuild(l, binding, Sources(l.rows, binding)), b');
  }

  // ---- the worker

  lemma AppliedKeepsKeys(l: Ledger, b: Brain, key: EventKey, ref: FactId)
    requires KeysMatch(l, b) && key in l.events && ref !in l.rows
    requires WorkerKey(key) in b.bindings && b.bindings[WorkerKey(key)] == ref
    ensures KeysMatch(CommitApplied(l, key, ref), b)
  {
    hide CommitApplied, KeyPlaced;
    var l' := CommitApplied(l, key, ref);
    AppliedRows(l, key, ref);
    forall k <- b.bindings ensures KeyPlaced(l', b, k) {
      AppliedPlaces(l, b, key, ref, k);
    }
    AppliedSource(l, b, key, ref);
  }

  lemma AppliedRows(l: Ledger, key: EventKey, ref: FactId)
    requires key in l.events && ref !in l.rows
    ensures var l' := CommitApplied(l, key, ref);
      && l'.rows.Keys == l.rows.Keys + {ref} && l'.rows[ref].binding.tenant == l.events[key].tenant
      && forall r <- l.rows :: l'.rows[r] == l.rows[r]
  {
    hide RegisterExternal, MarkStale;
  }

  lemma AppliedSource(l: Ledger, b: Brain, key: EventKey, ref: FactId)
    requires KeysMatch(l, b) && WorkerKey(key) in b.bindings && b.bindings[WorkerKey(key)] == ref
    ensures key in l.events && ref < |b.facts| && b.facts[ref].source == l.events[key].tenant
  {
    assert KeyPlaced(l, b, WorkerKey(key));
  }

  lemma AppliedPlaces(l: Ledger, b: Brain, key: EventKey, ref: FactId, k: Key)
    requires BindingsMatch(b) && k in b.bindings && KeyPlaced(l, b, k) && key in l.events && ref !in l.rows
    requires WorkerKey(key) in b.bindings && b.bindings[WorkerKey(key)] == ref
    ensures KeyPlaced(CommitApplied(l, key, ref), b, k)
  {
    assert b.bindings[k] == ref ==> k == WorkerKey(key);
    hide RegisterExternal, MarkStale, BindingOf;
  }

  /** A due event has no lifecycle row, so the worker's insert is never refused. */
  lemma WorkerIsReady(l: Ledger, b: Brain, key: EventKey)
    requires OriginsMatch(l) && KeysMatch(l, b) && Due(l, key)
    ensures key !in l.rowByOrigin
    ensures WorkerKey(key) in b.bindings ==> b.bindings[WorkerKey(key)] !in l.rows
  {
    if WorkerKey(key) in b.bindings { assert KeyPlaced(l, b, WorkerKey(key)); }
  }

  lemma SettledKeepsKeys(l: Ledger, b: Brain, key: EventKey, x: ExternalKey)
    requires KeysMatch(l, b) && key in l.events && l.events[key].status != Applied
    ensures KeysMatch(CommitDeadLetter(l, key), b) && KeysMatch(CommitRetry(l, key), b) && KeysMatch(CommitReview(l, key), b)
    ensures x in l.externals ==> KeysMatch(CommitDuplicate(l, key, l.externals[x].backendRef), b)
  {
    hide KeysMatch, RegisterExternal, PutReceipt;
    OwnEventKeepsKeys(l, CommitDeadLetter(l, key), b, key);
    OwnEventKeepsKeys(l, CommitRetry(l, key), b, key);
    OwnEventKeepsKeys(l, CommitReview(l, key), b, key);
    if x in l.externals { OwnEventKeepsKeys(l, CommitDuplicate(l, key, l.externals[x].backendRef), b, key); }
  }

  lemma OwnEventKeepsKeys(l: Ledger, l': Ledger, b: Brain, key: EventKey)
    requires KeysMatch(l, b) && key in l.events && l.events[key].status != Applied
    requires l'.rows == l.rows && l'.ops == l.ops && l'.opByKey == l.opByKey && l.reviews <= l'.reviews
    requires key in l'.events && l'.events[key].tenant == l.events[key].tenant && l'.events == l.events[key := l'.events[key]]
    ensures KeysMatch(l', b)
  {
    hide KeysMatch;
    RowlessKeepsKeys(l, l', b);
  }

  lemma WorkerKeepsStore(s: Store, key: EventKey, luck: Luck, commits: nat)
    requires StoreOk(s) && Due(s.ledger, key)
    ensures StoreOk(WorkerPass(s, key, luck, commits).store)
  {
    hide LedgerOk, KeysMatch, Upsert, CommitApplied, CommitReview, CommitDuplicate, CommitRetry, CommitDeadLetter;
    var l, e := s.ledger, s.ledger.events[key];
    var x := ExternalKeyOf(e, if e.payload.provenance.Some? then e.payload.provenance.value else Provenance("", "", ""));
    SettledKeepsKeys(l, s.brain, key, x);
    DeadLetterKeepsLedger(l, key);
    RetryKeepsLedger(l, key);
    ReviewKeepsLedger(l, key);
    if x in l.externals { DuplicateKeepsLedger(l, key, x); }
    WorkerUpsertKeepsStore(l, s.brain, key);
  }

  lemma WorkerUpsertKeepsStore(l: Ledger, b: Brain, key: EventKey)
    requires StoreOk(Store(l, b)) && Due(l, key)
    ensures var step := Upsert(b, WorkerKey(key), l.events[key].tenant, l.events[key].payload.content);
      && step.reply.Ok? && step.reply.ref.id !in l.rows && key !in l.rowByOrigin
      && KeysMatch(l, step.brain) && StoreOk(Store(CommitApplied(l, key, step.reply.ref.id), step.brain))
  {
    var e := l.events[key];
    UpsertKeepsKeys(l, b, WorkerKey(key), e.tenant, e.payload.content);
    var step := Upsert(b, WorkerKey(key), e.tenant, e.payload.content);
    WorkerIsReady(l, step.brain, key);
    AppliedKeepsLedger(l, key, step.reply.ref.id);
    AppliedKeepsKeys(l, step.brain, key, step.reply.ref.id);
  }

  lemma SubmitKeepsStore(s: Store, who: Principal, id: string, scope: Scope, payload: Payload)
    requires StoreOk(s)
    ensures StoreOk(Submit(s, who, id, scope, payload).store)
  {
    hide LedgerOk, KeysMatch;
    var key := EventKey(who.device, id);
    if key !in s.ledger.events && !payload.sensitive {
      var e := Event(who.tenant, who.user, who.agent, who.workspace, scope, payload, Pending, None, None, None, 0);
      SubmitKeepsLedger(s.ledger, key, e);
      RowlessKeepsKeys(s.ledger, CommitSubmit(s.ledger, key, e), s.brain);
    }
  }

  // ---- every run

  lemma ServeKeepsStore(s: Store, r: Request, commits: nat)
    requires StoreOk(s)
    ensures StoreOk(Serve(s, r, commits))
  {
    match r
    case Submitting(who, id, scope, payload) => SubmitKeepsStore(s, who, id, scope, payload);
    case Working(key, luck) => if Due(s.ledger, key) { WorkerKeepsStore(s, key, luck, commits); }
    case Resolving(q) => ResolveKeepsStore(s, q, commits);
    case Reverting(q) => RevertKeepsStore(s, q, commits);
    case Forgetting(who, ref) => ForgetKeepsStore(s, who, ref, commits);
    case Rebuilding(who, scope, ns, idem) => RebuildKeepsStore(s, who, scope, ns, idem, commits);
  }

  lemma {:induction false} RunKeepsStore(s: Store, attempts: seq<Attempt>)
    requires StoreOk(s)
    ensures StoreOk(Run(s, attempts))
    decreases |attempts|
  {
    if attempts != [] {
      ServeKeepsStore(s, attempts[0].request, attempts[0].commits);
      RunKeepsStore(Serve(s, attempts[0].request, attempts[0].commits), attempts[1..]);
    }
  }
}
