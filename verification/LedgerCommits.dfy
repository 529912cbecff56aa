/** Every request, wherever it crashes, changes the ledger by at most one transaction, and that transaction's guards
    hold when it runs. A property of every run is then proved one transaction at a time. */
module LedgerCommits {
  import opened Names
  import opened GBrain
  import opened Ledger
  import opened Lifecycle
  import opened LedgerInvariants
  import opened AllRuns
  import opened StoreAgreement

  datatype Commit =
    | Nothing
    | Submitted(key: EventKey, e: Event)
    | Confirming(review: nat, idem: string, action: Action, payload: Payload, ref: FactId, target: Option<FactId>)
    | Closing(review: nat, idem: string, action: Action)
    | Undoing(review: nat, idem: string, opId: nat)
    | Retiring(ref: FactId, tenant: string, user: string)
    | Rebuilt(binding: ScopeBinding)
    | Applying(key: EventKey, ref: FactId)
    | Reviewing(key: EventKey)
    | Deduplicating(key: EventKey)
    | Postponing(key: EventKey)
    | Abandoning(key: EventKey)

  /** The record an event was captured from is known already. */
  predicate RecordKnown(l: Ledger, e: Event) {
    e.payload.provenance.Some? && ExternalKeyOf(e, e.payload.provenance.value) in l.externals
  }

  ghost predicate Ready(l: Ledger, c: Commit) {
    match c
    case Nothing => true
    case Submitted(key, e) => key !in l.events && e.status == Pending && e.result.None? && e.backendRef.None? && !e.payload.sensitive
    case Confirming(review, idem, action, payload, ref, target) => ConfirmReady(l, review, idem, action, payload, ref, target)
    case Closing(review, idem, action) =>
      review < |l.reviews| && l.reviews[review].origin in l.events && idem !in l.opByKey
    case Undoing(review, idem, opId) => RevertReady(l, review, idem, opId)
    case Retiring(ref, _, _) => ref in l.rows
    case Rebuilt(_) => true
    case Applying(key, ref) => Due(l, key) && key !in l.rowByOrigin && ref !in l.rows && !RecordKnown(l, l.events[key])
    case Reviewing(key) => Due(l, key) && !RecordKnown(l, l.events[key])
    case Deduplicating(key) => Due(l, key) && RecordKnown(l, l.events[key])
    case Postponing(key) => Due(l, key)
    case Abandoning(key) => Due(l, key)
  }

  ghost function After(l: Ledger, c: Commit): Ledger
    requires Ready(l, c)
  {
    match c
    case Nothing => l
    case Submitted(key, e) => CommitSubmit(l, key, e)
    case Confirming(review, idem, action, payload, ref, target) => CommitConfirm(l, review, idem, action, payload, ref, target)
    case Closing(review, idem, action) => CommitClose(l, review, idem, action)
    case Undoing(review, idem, opId) => CommitRevert(l, review, idem, opId)
    case Retiring(ref, tenant, user) => CommitForget(l, ref, tenant, user)
    case Rebuilt(binding) => CommitRebuild(l, binding, Sources(l.rows, binding))
    case Applying(key, ref) => CommitApplied(l, key, ref)
    case Reviewing(key) => CommitReview(l, key)
    case Deduplicating(key) =>
      CommitDuplicate(l, key, l.externals[ExternalKeyOf(l.events[key], l.events[key].payload.provenance.value)].backendRef)
    case Postponing(key) => CommitRetry(l, key)
    case Abandoning(key) => CommitDeadLetter(l, key)
  }

  lemma ResolveCommits(s: Store, q: ResolveRequest, n: nat) returns (c: Commit)
    requires StoreOk(s)
    ensures Ready(s.ledger, c) && Resolve(s, q, n).store.ledger == After(s.ledger, c)
  {
    hide LedgerOk, KeysMatch, ConfirmReady, CommitConfirm, CommitClose, ConfirmBrain, ResolveStop, ConfirmRefusal, RevertReady;
    hide LogsAlternate, OriginsMatch, EffectsMatch, EventsMatch, TombstonesMatch, CrystalsFresh;
    var l := s.ledger;
    c := Nothing;
    if ResolveStop(l, q).None? && n > 0 {
      if q.action.CreatesFact() {
        LedgerParts(l);
        var step := ConfirmBrain(l, s.brain, q, n);
        ConfirmBrainKeepsKeys(l, s.brain, q, n);
        if step.reply.Ok? && n >= ConfirmCommits(q) && ConfirmRefusal(l, q, step.reply.ref.id).None? {
          ConfirmIsReady(l, step.brain, q, step.reply.ref.id);
          c := Confirming(q.review, q.idem, q.action, ResolvedPayload(l, q), step.reply.ref.id, if q.action == Supersession then q.target else None);
        }
      } else if q.idem !in l.opByKey {
        c := Closing(q.review, q.idem, q.action);
      }
    }
  }

  lemma RevertCommitsOnce(s: Store, q: RevertRequest, n: nat) returns (c: Commit)
    requires StoreOk(s)
    ensures Ready(s.ledger, c) && RevertOp(s, q, n).store.ledger == After(s.ledger, c)
  {
    hide LedgerOk, KeysMatch, RevertBrain, CommitRevert, RevertRefusal, RevertStop, RevertReady, ConfirmReady;
    var l := s.ledger;
    c := Nothing;
    if RevertStop(l, q).None? && n > 0 {
      var step := RevertBrain(s.brain, q, l.ops[q.opId]);
      if step.reply.Ok? && n >= RevertCommits(l.ops[q.opId]) && RevertRefusal(l, q).None? {
        RefusedTaken(l, q);
        RevertIsReady(l, q);
        c := Undoing(q.review, q.idem, q.opId);
      }
    }
  }

  lemma WorkerCommits(s: Store, key: EventKey, luck: Luck, n: nat) returns (c: Commit)
    requires StoreOk(s) && Due(s.ledger, key)
    ensures Ready(s.ledger, c) && WorkerPass(s, key, luck, n).store.ledger == After(s.ledger, c)
  {
    hide LedgerOk, KeysMatch, Upsert, CommitApplied, CommitReview, CommitDuplicate, CommitRetry, CommitDeadLetter, ConfirmReady, RevertReady;
    var l, e := s.ledger, s.ledger.events[key];
    var step := Upsert(s.brain, WorkerKey(key), e.tenant, e.payload.content);
    WorkerUpsertKeepsStore(l, s.brain, key);
    c := if n == 0 then Nothing
         else if luck == Unreadable then Abandoning(key)
         else if RecordKnown(l, e) then Deduplicating(key)
         else if e.payload.instruction || !e.payload.userExplicit then Reviewing(key)
         else if luck == TextRejected then Abandoning(key)
         else if luck == BackendDown then Postponing(key)
         else if n == 1 then Nothing
         else Applying(key, step.reply.ref.id);
  }

  /** The one ledger transaction of a request. */
  lemma ServeCommits(s: Store, r: Request, n: nat) returns (c: Commit)
    requires StoreOk(s)
    ensures Ready(s.ledger, c) && Serve(s, r, n).ledger == After(s.ledger, c)
  {
    hide StoreOk, Ready, After, Resolve, RevertOp, WorkerPass;
    match r
    case Submitting(who, id, scope, payload) => c := SubmitCommits(s, who, id, scope, payload, n);
    case Working(key, luck) =>
      if Due(s.ledger, key) { c := WorkerCommits(s, key, luck, n); } else { c := NothingCommits(s.ledger); }
    case Resolving(q) => c := ResolveCommits(s, q, n);
    case Reverting(q) => c := RevertCommitsOnce(s, q, n);
    case Forgetting(who, ref) => c := ForgetCommits(s, who, ref, n);
    case Rebuilding(who, scope, ns, idem) => c := RebuildCommits(s, who, scope, ns, idem, n);
  }

  lemma NothingCommits(l: Ledger) returns (c: Commit)
    ensures Ready(l, c) && l == After(l, c)
  {
    c := Nothing;
  }

  lemma SubmitCommits(s: Store, who: Principal, id: string, scope: Scope, payload: Payload, n: nat) returns (c: Commit)
    ensures Ready(s.ledger, c) && Serve(s, Submitting(who, id, scope, payload), n).ledger == After(s.ledger, c)
  {
    var key := EventKey(who.device, id);
    c := if n == 0 || payload.sensitive || key in s.ledger.events then Nothing
         else Submitted(key, Event(who.tenant, who.user, who.agent, who.workspace, scope, payload, Pending, None, None, None, 0));
  }

  lemma ForgetCommits(s: Store, who: Principal, ref: FactId, n: nat) returns (c: Commit)
    ensures Ready(s.ledger, c) && Serve(s, Forgetting(who, ref), n).ledger == After(s.ledger, c)
  {
    hide SetExpired;
    c := if Forget(s, who, ref, n).store.ledger == s.ledger then Nothing else Retiring(ref, who.tenant, who.user);
  }

  lemma RebuildCommits(s: Store, who: Principal, scope: Scope, ns: string, idem: string, n: nat) returns (c: Commit)
    ensures Ready(s.ledger, c) && Serve(s, Rebuilding(who, scope, ns, idem), n).ledger == After(s.ledger, c)
  {
    hide Rebuild, Sources;
    var binding := ScopeBinding(who.tenant, who.user, who.workspace, scope, ns);
    c := if RebuildCrystal(s, who, scope, ns, idem, n).store.ledger == s.ledger then Nothing else Rebuilt(binding);
  }
}
