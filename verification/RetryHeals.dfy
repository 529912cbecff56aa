/** Crashed requests and their retries. A crash leaves the stores in step except at the references it touched and half
    of the request in GBrain alone; a retry that finds that half heals exactly those references. */
module RetryHeals {
  import opened Names
  import opened GBrain
  import opened Ledger
  import opened Lifecycle
  import opened LedgerInvariants
  import opened AllRuns
  import opened StoreAgreement

  // ---- resolve: only a supersession moves a fact that has a row

  /** GBrain has linked the target to the new fact under the request's keys; the ledger knows nothing of it. */
  ghost predicate HalfSuperseded(s: Store, q: ResolveRequest) {
    var l, b := s.ledger, s.brain;
    && ResolveStop(l, q).None? && q.action == Supersession
    && q.idem !in l.opByKey && l.reviews[q.review].origin !in l.rowByOrigin
    && CreateKey(q.review, q.idem) in b.bindings && SupersedeKey(q.review, q.idem) in b.operations
    && var f := b.bindings[CreateKey(q.review, q.idem)];
    && b.operations[SupersedeKey(q.review, q.idem)] == Operation(SupersedeOp, OnFact(q.target.value), FactRef(f))
    && q.target.value < |b.facts| && !b.facts[q.target.value].expired && b.facts[q.target.value].supersededBy == Some(f)
  }

  /** A confirmation that crashed right after creating its fact leaves the stores in step: the fact has no row yet,
      so any requests may follow, and its retry is an ordinary resolve that finds the fact under its key. */
  lemma CrashedCreationAgrees(s: Store, q: ResolveRequest, except: set<FactId>, open: set<Pair>)
    requires Consistent(s, except, open) && ResolveStop(s.ledger, q).None? && q.action.CreatesFact()
    ensures Resolve(s, q, 1).answer == Crashed && Consistent(Resolve(s, q, 1).store, except, open)
  {
    hide LedgerOk, KeysMatch, Agree, KeysSpent, Upsert, ResolveStop, LogsAlternate, OriginsMatch, EffectsMatch, EventsMatch, TombstonesMatch,
      CrystalsFresh, Resolve;
    var l, b := s.ledger, s.brain;
    LedgerParts(l);
    CreateKeyIsFresh(l, b, q);
    CreatedIsFresh(l, b, q);
    ResolveKeepsStore(s, q, 1);
    FirstCommit(s, q);
    AgreeExtends(l, b, Upsert(b, CreateKey(q.review, q.idem), q.who.tenant, ResolvedPayload(l, q).content).brain, except, open);
  }

  lemma FirstCommit(s: Store, q: ResolveRequest)
    requires ResolveStop(s.ledger, q).None? && q.action.CreatesFact()
    requires Upsert(s.brain, CreateKey(q.review, q.idem), q.who.tenant, ResolvedPayload(s.ledger, q).content).reply.Ok?
    ensures Resolve(s, q, 1).answer == Crashed
    ensures Resolve(s, q, 1).store
         == s.(brain := Upsert(s.brain, CreateKey(q.review, q.idem), q.who.tenant, ResolvedPayload(s.ledger, q).content).brain)
  {
    hide ResolveStop, Upsert;
  }

  lemma CrashedSupersession(s: Store, q: ResolveRequest, except: set<FactId>, open: set<Pair>)
    requires Consistent(s, except, open) && !ResolveStrands(s, q) && ResolveStop(s.ledger, q).None?
    requires q.action == Supersession && q.target.value !in except && (q.review, q.idem) !in open
    requires q.idem !in s.ledger.opByKey
    ensures var s' := Resolve(s, q, 2).store;
      HalfSuperseded(s', q) && Consistent(s', except + {q.target.value}, open + {(q.review, q.idem)})
  {
    hide LedgerOk, KeysMatch, Agree, LogsAlternate, OriginsMatch, EffectsMatch, EventsMatch, TombstonesMatch, CrystalsFresh,
      ResolveStop, ConfirmBrain;
    var l, b := s.ledger, s.brain;
    ResolveKeepsStore(s, q, 2);
    LedgerParts(l);
    CreateKeyIsFresh(l, b, q);
    SupersessionGoesThrough(l, b, q, 2, except);
    ConfirmBrainKeepsKeys(l, b, q, 2);
    TargetIsLive(l, b, q, except);
    var step := ConfirmBrain(l, b, q, 2);
    ExceptAgrees(l, b, step.brain, {q.target.value}, except);
    SpendingOpens(l, b, step.brain, q.review, q.idem, open);
  }

  /** Facts may differ where the exception set says so. */
  lemma ExceptAgrees(l: Ledger, b: Brain, b': Brain, touched: set<FactId>, except: set<FactId>)
    requires Agree(l, b, except) && |b.facts| <= |b'.facts|
    requires forall f | 0 <= f < |b.facts| && f !in touched :: b'.facts[f] == b.facts[f]
    ensures Agree(l, b', except + touched)
  {
  }

  lemma SpendingOpens(l: Ledger, b: Brain, b': Brain, v: nat, idem: string, open: set<Pair>)
    requires KeysSpent(l, b, open) && |b.facts| <= |b'.facts|
    requires forall f | 0 <= f < |b.facts| && b.facts[f].expired :: b'.facts[f].expired
    requires forall k <- b'.operations ::
      k in b.operations || k == SupersedeKey(v, idem) || k == RestoreKey(v, idem) || k == ArchiveKey(v, idem)
    ensures KeysSpent(l, b', open + {(v, idem)})
  {
  }

  /** Committing the ledger half closes the pair. */
  lemma CommittingCloses(l: Ledger, l': Ledger, b: Brain, v: nat, idem: string, open: set<Pair>)
    requires KeysSpent(l, b, open) && forall k <- l.opByKey :: k in l'.opByKey
    requires idem in l'.opByKey
    ensures KeysSpent(l', b, open - {(v, idem)})
  {
  }

  lemma RetriedSupersessionHeals(s: Store, q: ResolveRequest, except: set<FactId>, open: set<Pair>)
    requires Consistent(s, except, open) && HalfSuperseded(s, q)
    ensures var s' := Resolve(s, q, 3).store;
      && Resolve(s, q, 3).answer.Done?
      && Consistent(s', except - {q.target.value}, open - {(q.review, q.idem)})
  {
    hide LedgerOk, KeysMatch, Agree, LogsAlternate, OriginsMatch, EffectsMatch, EventsMatch, TombstonesMatch, CrystalsFresh,
      ResolveStop, KeysSpent;
    var l, b := s.ledger, s.brain;
    ResolveKeepsStore(s, q, 3);
    LedgerParts(l);
    CreateKeyIsFresh(l, b, q);
    TargetOfResolve(l, q);
    RecordedSupersession(l, b, q);
    var f := b.bindings[CreateKey(q.review, q.idem)];
    FreshFactIsLive(l, b, CreateKey(q.review, q.idem));
    hide ConfirmBrain;
    ConfirmIsReady(l, b, q, f);
    var l' := CommitConfirm(l, q.review, q.idem, q.action, ResolvedPayload(l, q), f, q.target);
    SupersededAgrees(l, b, q.review, q.idem, ResolvedPayload(l, q), f, q.target.value, except);
    CommittingCloses(l, l', b, q.review, q.idem, open);
  }

  lemma RecordedSupersession(l: Ledger, b: Brain, q: ResolveRequest)
    requires KeysMatch(l, b) && HalfSuperseded(Store(l, b), q)
    ensures ConfirmBrain(l, b, q, 3) == Step(b, Ok(FactRef(b.bindings[CreateKey(q.review, q.idem)])))
  {
    assert CreateKey(q.review, q.idem) !in b.operations;
    assert b.bindings[CreateKey(q.review, q.idem)] != q.target.value by {
      FreshFactIsLive(l, b, CreateKey(q.review, q.idem));
      TargetOfResolve(l, q);
      assert KeyPlaced(l, b, CreateKey(q.review, q.idem));
    }
  }

  lemma FreshFactIsLive(l: Ledger, b: Brain, key: Key)
    requires KeysMatch(l, b) && key in b.bindings
    ensures b.bindings[key] < |b.facts| && (b.bindings[key] !in l.rows ==> b.facts[b.bindings[key]].Live())
  {
  }

  lemma SupersededAgrees(l: Ledger, b: Brain, review: nat, idem: string, payload: Payload, ref: FactId, target: FactId,
                         except: set<FactId>)
    requires Agree(l, b, except) && ConfirmReady(l, review, idem, Supersession, payload, ref, Some(target))
    requires ref < |b.facts| && b.facts[ref].Live() && target < |b.facts|
    requires !b.facts[target].expired && b.facts[target].supersededBy == Some(ref)
    ensures Agree(CommitConfirm(l, review, idem, Supersession, payload, ref, Some(target)), b, except - {target})
  {
  }

  // ---- revert

  /** GBrain has undone the operation under the request's key; the ledger still shows it in force. */
  ghost predicate HalfReverted(s: Store, q: RevertRequest) {
    var l, b := s.ledger, s.brain;
    && RevertStop(l, q).None? && q.idem !in l.opByKey && l.ops[q.opId].ref.Some? && l.ops[q.opId].action.CreatesFact()
    && var o := l.ops[q.opId];
    && RevertKey(q, o) in b.operations
    && b.operations[RevertKey(q, o)] == RevertRecord(o)
    && o.ref.value in l.rows && o.ref.value < |b.facts| && b.facts[o.ref.value].expired
    && l.rows[o.ref.value].supersededBy == b.facts[o.ref.value].supersededBy
    && (o.target.Some? ==> o.target.value < |b.facts| && o.target != o.ref)
  }

  function RevertRecord(o: Op): Operation
    requires o.ref.Some?
  {
    if o.action == Supersession && o.target.Some?
    then Operation(RestoreOp, OnPair(o.target.value, o.ref.value), FactRef(o.target.value))
    else Operation(ArchiveOp, OnFact(o.ref.value), FactRef(o.ref.value))
  }

  predicate TargetLive(b: Brain, o: Op) {
    o.target.Some? ==> o.target.value < |b.facts| && b.facts[o.target.value].Live()
  }

  lemma CrashedRevert(s: Store, q: RevertRequest, except: set<FactId>, open: set<Pair>)
    requires Consistent(s, except, open) && RevertStop(s.ledger, q).None? && q.idem !in s.ledger.opByKey
    requires RevertTouches(s.ledger, q) !! except && (q.review, q.idem) !in open
    requires s.ledger.ops[q.opId].ref.Some? && RevertOp(s, q, 1).answer == Crashed
    ensures HalfReverted(RevertOp(s, q, 1).store, q) && TargetLive(RevertOp(s, q, 1).store.brain, s.ledger.ops[q.opId])
    ensures Consistent(RevertOp(s, q, 1).store, except + RevertTouches(s.ledger, q), open + {(q.review, q.idem)})
  {
    hide LedgerOk, KeysMatch, Agree, LogsAlternate, OriginsMatch, EffectsMatch, EventsMatch, TombstonesMatch, CrystalsFresh,
      RevertStop, KeysSpent, RevertOp, RevertBrain, Reverted, RevertRecord, RevertKey;
    var l, b, o := s.ledger, s.brain, s.ledger.ops[q.opId];
    var step := RevertBrain(b, q, o);
    CrashedRevertStore(s, q);
    RevertKeepsStore(s, q, 1);
    LedgerParts(l);
    RevertedFacts(l, b, q, except);
    RevertKeyIsFresh(l, b, q, o, open);
    RevertGoesThrough(b, q, o);
    RevertRecords(b, q, o);
    RevertedOpens(l, b, step.brain, q, o, except, open);
  }

  lemma RevertKeyIsFresh(l: Ledger, b: Brain, q: RevertRequest, o: Op, open: set<Pair>)
    requires KeysSpent(l, b, open) && q.idem !in l.opByKey && (q.review, q.idem) !in open
    ensures RevertKey(q, o) !in b.operations
  {
  }

  lemma RevertedOpens(l: Ledger, b: Brain, b': Brain, q: RevertRequest, o: Op, except: set<FactId>, open: set<Pair>)
    requires Agree(l, b, except) && KeysSpent(l, b, open) && Reverted(b, b', o)
    requires forall k <- b'.operations :: k in b.operations || k == RestoreKey(q.review, q.idem) || k == ArchiveKey(q.review, q.idem)
    requires o.ref.Some? && o.ref.value < |b.facts| && (o.target.Some? ==> o.target.value < |b.facts| && o.target != o.ref)
    ensures Agree(l, b', except + (RefSet(o.ref) + RefSet(o.target))) && KeysSpent(l, b', open + {(q.review, q.idem)})
    ensures b'.facts[o.ref.value] == b.facts[o.ref.value].(expired := true)
    ensures o.target.Some? ==> b'.facts[o.target.value] == b.facts[o.target.value].(supersededBy := None)
  {
    ExceptAgrees(l, b, b', RefSet(o.ref) + RefSet(o.target), except);
    SpendingOpens(l, b, b', q.review, q.idem, open);
  }

  lemma CrashedRevertStore(s: Store, q: RevertRequest)
    requires RevertStop(s.ledger, q).None? && RevertOp(s, q, 1).answer == Crashed
    ensures RevertBrain(s.brain, q, s.ledger.ops[q.opId]).reply.Ok?
    ensures RevertOp(s, q, 1).store == s.(brain := RevertBrain(s.brain, q, s.ledger.ops[q.opId]).brain)
  {
    hide RevertStop, RevertBrain;
  }

  lemma RevertRecords(b: Brain, q: RevertRequest, o: Op)
    requires o.action.CreatesFact() && o.ref.Some? && RevertKey(q, o) !in b.operations && RevertBrain(b, q, o).reply.Ok?
    ensures var b' := RevertBrain(b, q, o).brain; RevertKey(q, o) in b'.operations && b'.operations[RevertKey(q, o)] == RevertRecord(o)
  {
  }

  /** A retried revert heals the stores exactly when its target is live again in GBrain. */
  lemma RetriedRevertHeals(s: Store, q: RevertRequest, except: set<FactId>, open: set<Pair>)
    requires Consistent(s, except, open) && HalfReverted(s, q)
    ensures RevertOp(s, q, 2).answer.Done?
    ensures var s', o := RevertOp(s, q, 2).store, s.ledger.ops[q.opId];
      if TargetLive(s.brain, o)
      then Consistent(s', except - RevertTouches(s.ledger, q), open - {(q.review, q.idem)})
      else !Agree(s'.ledger, s'.brain, except - RevertTouches(s.ledger, q))
  {
    hide LedgerOk, KeysMatch, Agree, LogsAlternate, OriginsMatch, EffectsMatch, EventsMatch, TombstonesMatch, CrystalsFresh,
      RevertStop, KeysSpent, CommitRevert, RevertRefusal;
    var l, b, o := s.ledger, s.brain, s.ledger.ops[q.opId];
    RevertKeepsStore(s, q, 2);
    LedgerParts(l);
    RecordedRevert(b, q, o);
    RevertIsReady(l, q);
    TombstoneNeverMissing(l, q.review, q.idem, q.opId);
    ReadyRevertRecorded(l, q);
    var l' := CommitRevert(l, q.review, q.idem, q.opId);
    RetriedRows(l, q.review, q.idem, q.opId);
    CommittingCloses(l, l', b, q.review, q.idem, open);
    if TargetLive(b, o) {
      HealedAgrees(l, l', b, o, except);
    } else {
      DisagreeAt(l', b, o.target.value, except - RevertTouches(l, q));
    }
  }

  lemma RecordedRevert(b: Brain, q: RevertRequest, o: Op)
    requires o.action.CreatesFact() && o.ref.Some? && o.target != o.ref
    requires RevertKey(q, o) in b.operations && b.operations[RevertKey(q, o)] == RevertRecord(o)
    ensures RevertBrain(b, q, o).brain == b && RevertBrain(b, q, o).reply.Ok?
  {
  }

  lemma ReadyRevertRecorded(l: Ledger, q: RevertRequest)
    requires LogsAlternate(l) && EffectsMatch(l) && RevertReady(l, q.review, q.idem, q.opId)
    ensures var o := l.ops[q.opId]; o.action == Supersession <==> o.target.Some?
  {
    assert EffectRecorded(l, l.ops[q.opId]);
  }

  /** The two rows a revert rewrites; the rest, and the keys, stay. */
  lemma RetriedRows(l: Ledger, review: nat, idem: string, opId: nat)
    requires RevertReady(l, review, idem, opId)
    requires var o, e := l.ops[opId], l.events[l.reviews[review].origin];
      && (o.action == Supersession <==> o.target.Some?)
      && o.ref.Some? && o.target != o.ref && OwnedRow(l.rows, o.ref.value, e.tenant, e.user)
      && (o.target.Some? ==> OwnedRow(l.rows, o.target.value, e.tenant, e.user))
    ensures var l', o := CommitRevert(l, review, idem, opId), l.ops[opId];
      && l'.rows.Keys == l.rows.Keys
      && l'.rows[o.ref.value].status == Archived && l'.rows[o.ref.value].supersededBy == l.rows[o.ref.value].supersededBy
      && (o.target.Some? ==> l'.rows[o.target.value].status == Active && l'.rows[o.target.value].supersededBy.None?)
      && (forall r <- l.rows :: Some(r) == o.ref || Some(r) == o.target || l'.rows[r] == l.rows[r])
      && idem in l'.opByKey && (forall k <- l.opByKey :: k in l'.opByKey)
  {
  }

  lemma HealedAgrees(l: Ledger, l': Ledger, b: Brain, o: Op, except: set<FactId>)
    requires Agree(l, b, except) && o.ref.Some? && l'.rows.Keys == l.rows.Keys && o.ref.value in l.rows
    requires l'.rows[o.ref.value].status == Archived && o.ref.value < |b.facts| && b.facts[o.ref.value].expired
    requires l'.rows[o.ref.value].supersededBy == b.facts[o.ref.value].supersededBy
    requires o.target.Some? ==>
      && o.target.value in l.rows && o.target.value < |b.facts| && b.facts[o.target.value].Live()
      && l'.rows[o.target.value].status == Active && l'.rows[o.target.value].supersededBy.None?
    requires forall r <- l.rows :: Some(r) == o.ref || Some(r) == o.target || l'.rows[r] == l.rows[r]
    ensures Agree(l', b, except - (RefSet(o.ref) + RefSet(o.target)))
  {
  }

  // ---- forget

  lemma CrashedForget(s: Store, who: Principal, ref: FactId, except: set<FactId>, open: set<Pair>)
    requires Consistent(s, except, open)
    ensures Consistent(Forget(s, who, ref, 1).store, except + {ref}, open)
  {
    hide LedgerOk, KeysMatch;
    ForgetKeepsStore(s, who, ref, 1);
    var step := SetExpired(s.brain, ForgetKey(ref, who.workspace), ref, ArchiveOp);
    ArchiveRecords(s.brain, ForgetKey(ref, who.workspace), ref);
    hide SetExpired;
    ExceptAgrees(s.ledger, s.brain, step.brain, {ref}, except);
  }

  lemma ArchiveRecords(b: Brain, key: Key, id: FactId)
    ensures var b' := SetExpired(b, key, id, ArchiveOp).brain;
      && |b'.facts| == |b.facts|
      && (forall f | 0 <= f < |b.facts| :: b'.facts[f] == b.facts[f] || (f == id && b'.facts[f] == b.facts[f].(expired := true)))
      && (forall k <- b'.operations :: k in b.operations || (k == key && id < |b.facts| && b'.facts[id].expired))
  {
  }

  lemma RetriedForgetHeals(s: Store, who: Principal, ref: FactId, except: set<FactId>, open: set<Pair>)
    requires Consistent(s, except, open)
    requires OwnedRow(s.ledger.rows, ref, who.tenant, who.user) && s.ledger.rows[ref].binding.workspace == who.workspace
    requires s.ledger.rows[ref].status == Active && s.ledger.rows[ref].supersededBy == s.brain.facts[ref].supersededBy
    requires ForgetKey(ref, who.workspace) in s.brain.operations
    requires s.brain.operations[ForgetKey(ref, who.workspace)] == Operation(ArchiveOp, OnFact(ref), FactRef(ref))
    ensures Forget(s, who, ref, 2).answer == Settled(Archived)
    ensures Consistent(Forget(s, who, ref, 2).store, except - {ref}, open)
  {
    hide LedgerOk, KeysMatch;
    ForgetKeepsStore(s, who, ref, 2);
  }

  // ---- requests in between

  /** The request neither strands the stores, nor names or undoes an excepted reference, nor uses an open pair. It may
      still commit on the candidate of a crashed request, or take its key: RetriesAmongOthers says what then happens. */
  predicate Foreign(s: Store, r: Request, except: set<FactId>, open: set<Pair>) {
    match r
    case Resolving(q) => !ResolveStrands(s, q) && (q.review, q.idem) !in open && (q.target.Some? ==> q.target.value !in except)
    case Reverting(q) => !RevertStrands(s, q) && (q.review, q.idem) !in open && RevertTouches(s.ledger, q) !! except
    case Forgetting(_, ref) => ref !in except
    case _ => true
  }

  lemma ForeignKeepsConsistent(s: Store, r: Request, except: set<FactId>, open: set<Pair>)
    requires Consistent(s, except, open) && Foreign(s, r, except, open)
    ensures Consistent(Serve(s, r, 3), except, open)
  {
    hide Consistent, ResolveStrands, RevertStrands;
    match r
    case Submitting(who, id, scope, payload) => SubmitAgrees(s, who, id, scope, payload, except, open);
    case Working(key, luck) => if Due(s.ledger, key) { WorkerAgrees(s, key, luck, 3, except, open); }
    case Resolving(q) => ResolveAgrees(s, q, 3, except, open);
    case Reverting(q) => RevertAgrees(s, q, 3, except, open);
    case Forgetting(who, ref) => ForgetAgrees(s, who, ref, 3, except, open);
    case Rebuilding(who, scope, ns, idem) => RebuildAgrees(s, who, scope, ns, idem, 3, except, open);
  }
}
