/** No table names a fact that GBrain does not hold, in any state a run reaches. */
module KnownFacts {
  import opened Names
  import opened GBrain
  import opened Ledger
  import opened Lifecycle
  import opened StoreAgreement

  predicate Known(ref: Option<FactId>, n: nat) {
    ref.Some? ==> ref.value < n
  }

  ghost predicate EventsKnown(l: Ledger, n: nat) {
    && (forall k <- l.events :: Known(l.events[k].backendRef, n))
    && (forall k <- l.receipts :: Known(l.receipts[k].backendRef, n))
    && (forall x <- l.externals :: Known(l.externals[x].backendRef, n))
  }

  ghost predicate RowsKnown(l: Ledger, n: nat) {
    && (forall r <- l.rows :: r < n && Known(l.rows[r].supersededBy, n))
    && (forall k <- l.rowByOrigin :: l.rowByOrigin[k] < n)
    && (forall r <- l.tombstones :: r < n)
    && (forall c <- l.crystals :: forall r <- l.crystals[c].refs :: r < n)
  }

  ghost predicate OpsKnown(l: Ledger, n: nat) {
    forall i | 0 <= i < |l.ops| :: Known(l.ops[i].ref, n) && Known(l.ops[i].target, n)
  }

  ghost predicate LedgerKnown(l: Ledger, n: nat) {
    EventsKnown(l, n) && RowsKnown(l, n) && OpsKnown(l, n)
  }

  predicate TargetKnown(t: Target, n: nat) {
    match t case OnFact(id) => id < n case OnPair(o, w) => o < n && w < n case OnScope(_) => true
  }

  ghost predicate RefKnown(r: Ref, n: nat) {
    match r case FactRef(id) => id < n case PageRef(_, _, refs) => forall x <- refs :: x < n
  }

  ghost predicate BrainKnown(b: Brain) {
    && (forall i | 0 <= i < |b.facts| :: Known(b.facts[i].supersededBy, |b.facts|))
    && (forall k <- b.bindings :: b.bindings[k] < |b.facts|)
    && (forall k <- b.operations ::
          && (k.ForgetKey? ==> k.ref < |b.facts|)
          && TargetKnown(b.operations[k].target, |b.facts|) && RefKnown(b.operations[k].result, |b.facts|))
    && (forall p <- b.pages :: RefKnown(p, |b.facts|))
  }

  ghost predicate AllKnown(s: Store) {
    LedgerKnown(s.ledger, |s.brain.facts|) && BrainKnown(s.brain)
  }

  // ---- GBrain

  lemma UpsertKnown(b: Brain, key: Key, source: string, content: string)
    requires BrainKnown(b)
    ensures var step := Upsert(b, key, source, content);
      && BrainKnown(step.brain) && |b.facts| <= |step.brain.facts| && (step.reply.Ok? ==> step.reply.ref.id < |step.brain.facts|)
  {
  }

  lemma SupersedeKnown(b: Brain, key: Key, oldId: FactId, newId: FactId)
    requires BrainKnown(b) && !key.ForgetKey?
    ensures BrainKnown(Supersede(b, key, oldId, newId).brain) && |Supersede(b, key, oldId, newId).brain.facts| == |b.facts|
  {
  }

  lemma SetExpiredKnown(b: Brain, key: Key, id: FactId)
    requires BrainKnown(b) && (key.ForgetKey? ==> key.ref == id)
    ensures BrainKnown(SetExpired(b, key, id, ArchiveOp).brain) && |SetExpired(b, key, id, ArchiveOp).brain.facts| == |b.facts|
  {
  }

  lemma RestoreKnown(b: Brain, key: Key, oldId: FactId, newId: FactId)
    requires BrainKnown(b) && !key.ForgetKey?
    ensures BrainKnown(Restore(b, key, oldId, newId).brain) && |Restore(b, key, oldId, newId).brain.facts| == |b.facts|
  {
  }

  lemma RebuildKnown(b: Brain, key: Key, source: string, refs: set<FactId>, binding: ScopeBinding)
    requires BrainKnown(b) && !key.ForgetKey?
    ensures BrainKnown(Rebuild(b, key, source, refs, binding).brain) && |Rebuild(b, key, source, refs, binding).brain.facts| == |b.facts|
  {
  }

  // ---- the ledger

  lemma KnownGrows(l: Ledger, n: nat, m: nat)
    requires LedgerKnown(l, n) && n <= m
    ensures LedgerKnown(l, m)
  {
  }

  lemma ConfirmKnown(l: Ledger, review: nat, idem: string, action: Action, payload: Payload, ref: FactId, target: Option<FactId>, n: nat)
    requires LedgerKnown(l, n) && review < |l.reviews| && l.reviews[review].origin in l.events && ref < n && Known(target, n)
    ensures LedgerKnown(CommitConfirm(l, review, idem, action, payload, ref, target), n)
  {
  }

  lemma CloseKnown(l: Ledger, review: nat, idem: string, action: Action, n: nat)
    requires LedgerKnown(l, n) && review < |l.reviews| && l.reviews[review].origin in l.events
    ensures LedgerKnown(CommitClose(l, review, idem, action), n)
  {
  }

  lemma RevertKnown(l: Ledger, review: nat, idem: string, opId: nat, n: nat)
    requires LedgerKnown(l, n) && review < |l.reviews| && l.reviews[review].origin in l.events && opId < |l.ops|
    ensures LedgerKnown(CommitRevert(l, review, idem, opId), n)
  {
  }

  lemma ForgetKnown(l: Ledger, ref: FactId, tenant: string, user: string, n: nat)
    requires LedgerKnown(l, n) && ref in l.rows
    ensures LedgerKnown(CommitForget(l, ref, tenant, user), n)
  {
  }

  lemma RebuiltKnown(l: Ledger, binding: ScopeBinding, n: nat)
    requires LedgerKnown(l, n)
    ensures LedgerKnown(CommitRebuild(l, binding, Sources(l.rows, binding)), n)
  {
  }

  lemma RegisteredKnown(l: Ledger, key: EventKey, e: Event, ref: Option<FactId>, n: nat)
    requires EventsKnown(l, n) && Known(ref, n)
    ensures forall x <- RegisterExternal(l.externals, key, e, ref) :: Known(RegisterExternal(l.externals, key, e, ref)[x].backendRef, n)
  {
  }

  lemma AppliedKnown(l: Ledger, key: EventKey, ref: FactId, n: nat)
    requires LedgerKnown(l, n) && key in l.events && ref < n
    ensures LedgerKnown(CommitApplied(l, key, ref), n)
  {
    RegisteredKnown(l, key, l.events[key], Some(ref), n);
    hide RegisterExternal;
  }

  lemma ReviewKnown(l: Ledger, key: EventKey, n: nat)
    requires LedgerKnown(l, n) && key in l.events
    ensures LedgerKnown(CommitReview(l, key), n)
  {
    RegisteredKnown(l, key, l.events[key], None, n);
    hide RegisterExternal;
  }

  lemma EventCommitsKnown(l: Ledger, key: EventKey, ref: FactId, x: ExternalKey, n: nat)
    requires LedgerKnown(l, n) && key in l.events
    ensures ref < n ==> LedgerKnown(CommitApplied(l, key, ref), n)
    ensures LedgerKnown(CommitReview(l, key), n) && LedgerKnown(CommitRetry(l, key), n) && LedgerKnown(CommitDeadLetter(l, key), n)
    ensures x in l.externals ==> LedgerKnown(CommitDuplicate(l, key, l.externals[x].backendRef), n)
  {
    hide CommitApplied, CommitReview, CommitDuplicate, CommitRetry, CommitDeadLetter, LedgerKnown;
    if ref < n { AppliedKnown(l, key, ref, n); }
    ReviewKnown(l, key, n);
    FailureKnown(l, key, n);
    if x in l.externals { DuplicateKnown(l, key, x, n); }
  }

  lemma FailureKnown(l: Ledger, key: EventKey, n: nat)
    requires LedgerKnown(l, n) && key in l.events
    ensures LedgerKnown(CommitRetry(l, key), n) && LedgerKnown(CommitDeadLetter(l, key), n)
  {
    hide RowsKnown, OpsKnown;
    SameRowsKnown(l, CommitRetry(l, key), n);
    SameRowsKnown(l, CommitDeadLetter(l, key), n);
  }

  lemma DuplicateKnown(l: Ledger, key: EventKey, x: ExternalKey, n: nat)
    requires LedgerKnown(l, n) && key in l.events && x in l.externals
    ensures LedgerKnown(CommitDuplicate(l, key, l.externals[x].backendRef), n)
  {
    hide RowsKnown, OpsKnown;
    SameRowsKnown(l, CommitDuplicate(l, key, l.externals[x].backendRef), n);
  }

  lemma SameRowsKnown(l: Ledger, l': Ledger, n: nat)
    requires RowsKnown(l, n) && OpsKnown(l, n) && l'.rows == l.rows && l'.rowByOrigin == l.rowByOrigin
    requires l'.tombstones == l.tombstones && l'.crystals == l.crystals && l'.ops == l.ops
    ensures RowsKnown(l', n) && OpsKnown(l', n)
  {
  }

  lemma SubmitKnown(l: Ledger, key: EventKey, e: Event, n: nat)
    requires LedgerKnown(l, n) && e.backendRef.None?
    ensures LedgerKnown(CommitSubmit(l, key, e), n)
  {
  }

  // ---- requests

  lemma ResolveKnown(s: Store, q: ResolveRequest, commits: nat)
    requires AllKnown(s)
    ensures AllKnown(Resolve(s, q, commits).store) && |s.brain.facts| <= |Resolve(s, q, commits).store.brain.facts|
  {
    hide LedgerKnown, BrainKnown, ResolveStop, ConfirmRefusal, CommitConfirm, CommitClose, ConfirmBrain;
    var l, b := s.ledger, s.brain;
    if ResolveStop(l, q).None? && commits > 0 {
      if q.action.CreatesFact() {
        var step := ConfirmBrain(l, b, q, commits);
        ConfirmBrainKnown(l, b, q, commits);
        KnownGrows(l, |b.facts|, |step.brain.facts|);
        if q.action == Supersession { ConfirmTargetKnown(l, q, |step.brain.facts|); }
        if step.reply.Ok? {
          ConfirmKnown(l, q.review, q.idem, q.action, ResolvedPayload(l, q), step.reply.ref.id,
                       if q.action == Supersession then q.target else None, |step.brain.facts|);
        }
      } else {
        CloseKnown(l, q.review, q.idem, q.action, |b.facts|);
      }
    }
  }

  lemma ConfirmTargetKnown(l: Ledger, q: ResolveRequest, n: nat)
    requires LedgerKnown(l, n) && ResolveStop(l, q).None? && q.action == Supersession
    ensures Known(q.target, n)
  {
    TargetOfResolve(l, q);
  }

  lemma ConfirmBrainKnown(l: Ledger, b: Brain, q: ResolveRequest, commits: nat)
    requires BrainKnown(b) && ResolveStop(l, q).None? && commits > 0
    ensures var step := ConfirmBrain(l, b, q, commits);
      && BrainKnown(step.brain) && |b.facts| <= |step.brain.facts| && (step.reply.Ok? ==> step.reply.ref.id < |step.brain.facts|)
  {
    hide BrainKnown, Upsert, Supersede, ResolveStop;
    var created := Upsert(b, CreateKey(q.review, q.idem), q.who.tenant, ResolvedPayload(l, q).content);
    UpsertKnown(b, CreateKey(q.review, q.idem), q.who.tenant, ResolvedPayload(l, q).content);
    if created.reply.Ok? && q.target.Some? {
      SupersedeKnown(created.brain, SupersedeKey(q.review, q.idem), q.target.value, created.reply.ref.id);
    }
  }

  lemma RevertOpKnown(s: Store, q: RevertRequest, commits: nat)
    requires AllKnown(s)
    ensures AllKnown(RevertOp(s, q, commits).store) && |s.brain.facts| <= |RevertOp(s, q, commits).store.brain.facts|
  {
    hide LedgerKnown, BrainKnown, RevertStop, RevertRefusal, CommitRevert, Restore, SetExpired;
    var l, b := s.ledger, s.brain;
    if RevertStop(l, q).None? {
      var o := l.ops[q.opId];
      if o.ref.Some? {
        SetExpiredKnown(b, ArchiveKey(q.review, q.idem), o.ref.value);
        if o.target.Some? { RestoreKnown(b, RestoreKey(q.review, q.idem), o.target.value, o.ref.value); }
      }
      RevertKnown(l, q.review, q.idem, q.opId, |b.facts|);
    }
  }

  lemma WorkerKnown(s: Store, key: EventKey, luck: Luck, commits: nat)
    requires AllKnown(s) && Due(s.ledger, key)
    ensures AllKnown(WorkerPass(s, key, luck, commits).store)
    ensures |s.brain.facts| <= |WorkerPass(s, key, luck, commits).store.brain.facts|
  {
    hide LedgerKnown, BrainKnown, WorkerPass, Upsert, CommitApplied, CommitReview, CommitDuplicate, CommitRetry, CommitDeadLetter;
    var l, b, e := s.ledger, s.brain, s.ledger.events[key];
    var step := Upsert(b, WorkerKey(key), e.tenant, e.payload.content);
    var x := ExternalKeyOf(e, if e.payload.provenance.Some? then e.payload.provenance.value else Provenance("", "", ""));
    WorkerShape(s, key, luck, commits);
    UpsertKnown(b, WorkerKey(key), e.tenant, e.payload.content);
    KnownGrows(l, |b.facts|, |step.brain.facts|);
    EventCommitsKnown(l, key, if step.reply.Ok? then step.reply.ref.id else 0, x, |step.brain.facts|);
    EventCommitsKnown(l, key, 0, x, |b.facts|);
  }

  lemma OthersKnown(s: Store, r: Request, commits: nat)
    requires AllKnown(s) && !r.Resolving? && !r.Reverting? && !r.Working?
    ensures AllKnown(Serve(s, r, commits)) && |s.brain.facts| <= |Serve(s, r, commits).brain.facts|
  {
    hide LedgerKnown, BrainKnown, SetExpired, Rebuild, CommitForget, CommitRebuild, CommitSubmit, Sources;
    var l, b := s.ledger, s.brain;
    match r
    case Submitting(who, id, scope, payload) =>
      SubmitKnown(l, EventKey(who.device, id), Event(who.tenant, who.user, who.agent, who.workspace, scope, payload, Pending, None, None, None, 0), |b.facts|);
    case Forgetting(who, ref) =>
      SetExpiredKnown(b, ForgetKey(ref, who.workspace), ref);
      if ref in l.rows { ForgetKnown(l, ref, who.tenant, who.user, |b.facts|); }
    case Rebuilding(who, scope, ns, idem) =>
      var binding := ScopeBinding(who.tenant, who.user, who.workspace, scope, ns);
      RebuildKnown(b, CrystalKey(binding, idem), who.tenant, Sources(l.rows, binding), binding);
      RebuiltKnown(l, binding, |b.facts|);
    case _ =>
  }

  lemma ServeKnown(s: Store, r: Request, commits: nat)
    requires AllKnown(s)
    ensures AllKnown(Serve(s, r, commits)) && |s.brain.facts| <= |Serve(s, r, commits).brain.facts|
  {
    hide AllKnown, Resolve, RevertOp, WorkerPass, Submit, Forget, RebuildCrystal;
    match r
    case Resolving(q) => ResolveKnown(s, q, commits);
    case Reverting(q) => RevertOpKnown(s, q, commits);
    case Working(key, luck) => if Due(s.ledger, key) { WorkerKnown(s, key, luck, commits); }
    case _ => OthersKnown(s, r, commits);
  }

  lemma {:induction false} RunKnown(s: Store, attempts: seq<Attempt>)
    requires AllKnown(s)
    ensures AllKnown(Run(s, attempts))
    decreases |attempts|
  {
    hide AllKnown, Serve;
    if attempts != [] {
      ServeKnown(s, attempts[0].request, attempts[0].commits);
      RunKnown(Serve(s, attempts[0].request, attempts[0].commits), attempts[1..]);
    }
  }

  /** In every state a run reaches from the empty stores, whatever crashed, no table names a fact GBrain lacks. */
  lemma NothingDangles(attempts: seq<Attempt>)
    ensures AllKnown(Run(EMPTY, attempts))
  {
    RunKnown(EMPTY, attempts);
  }
}
