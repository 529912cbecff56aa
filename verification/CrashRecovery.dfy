/** Retrying a crashed request. Two attempts of one request, the first getting k commits far and the second n,
    leave both stores exactly as one attempt of max(k, n) commits; so any number of crashes is invisible. */
module CrashRecovery {
  import opened Names
  import opened GBrain
  import opened Ledger
  import opened Lifecycle

  function Max(k: nat, n: nat): nat {
    if k < n then n else k
  }

  // ---- every GBrain transaction answers a repetition from its own log

  lemma UpsertRepeats(b: Brain, key: Key, source: string, content: string)
    ensures var first := Upsert(b, key, source, content); Upsert(first.brain, key, source, content) == first
  {
  }

  lemma SupersedeRepeats(b: Brain, key: Key, oldId: FactId, newId: FactId)
    ensures var first := Supersede(b, key, oldId, newId);
      && Supersede(first.brain, key, oldId, newId) == first
      && first.brain.bindings == b.bindings
      && forall k | k != key :: k in first.brain.operations <==> k in b.operations
  {
  }

  lemma SetExpiredRepeats(b: Brain, key: Key, id: FactId)
    ensures var first := SetExpired(b, key, id, ArchiveOp); SetExpired(first.brain, key, id, ArchiveOp) == first
  {
  }

  lemma RestoreRepeats(b: Brain, key: Key, oldId: FactId, newId: FactId)
    ensures var first := Restore(b, key, oldId, newId); Restore(first.brain, key, oldId, newId) == first
  {
  }

  // ---- resolve

  lemma ConfirmBrainResumes(l: Ledger, b: Brain, q: ResolveRequest, k: nat, n: nat)
    requires ResolveStop(l, q).None? && k > 0 && n > 0
    ensures ConfirmBrain(l, ConfirmBrain(l, b, q, k).brain, q, n).brain == ConfirmBrain(l, b, q, Max(k, n)).brain
    ensures k <= n ==> ConfirmBrain(l, ConfirmBrain(l, b, q, k).brain, q, n) == ConfirmBrain(l, b, q, n)
    ensures n < k && n >= 2 ==> ConfirmBrain(l, ConfirmBrain(l, b, q, k).brain, q, n) == ConfirmBrain(l, b, q, k)
  {
    var source, content := q.who.tenant, ResolvedPayload(l, q).content;
    var created := Upsert(b, CreateKey(q.review, q.idem), source, content);
    UpsertRepeats(b, CreateKey(q.review, q.idem), source, content);
    if q.action == Supersession && created.reply.Ok? {
      var linked := Supersede(created.brain, SupersedeKey(q.review, q.idem), q.target.value, created.reply.ref.id);
      SupersedeRepeats(created.brain, SupersedeKey(q.review, q.idem), q.target.value, created.reply.ref.id);
      LinkedUpsertRepeats(b, created, linked.brain, CreateKey(q.review, q.idem), source, content);
    }
  }

  lemma LinkedUpsertRepeats(b: Brain, created: Step, linked: Brain, key: Key, source: string, content: string)
    requires created == Upsert(b, key, source, content) && created.reply.Ok?
    requires linked.bindings == created.brain.bindings && key !in linked.operations
    ensures Upsert(linked, key, source, content) == Step(linked, created.reply)
  {
  }

  /** Once an operation is committed, the same request is answered as its duplicate and changes nothing. */
  lemma CommittedResolveRepeats(s: Store, q: ResolveRequest, k: nat, n: nat)
    requires Resolve(s, q, k).answer.Done?
    ensures Resolve(Resolve(s, q, k).store, q, n).store == Resolve(s, q, k).store
  {
    DoneResolveIsLogged(s, q, k);
    hide Resolve, LoggedFor;
    LoggedIsDuplicate(Resolve(s, q, k).store, q, n, |s.ledger.ops|);
  }

  ghost predicate LoggedFor(l: Ledger, q: ResolveRequest, op: nat) {
    && q.idem in l.opByKey && l.opByKey[q.idem] == op && op < |l.ops| && q.action != Revert
    && l.ops[op].tenant == q.who.tenant && l.ops[op].user == q.who.user && l.ops[op].workspace == q.who.workspace
  }

  lemma DoneResolveIsLogged(s: Store, q: ResolveRequest, k: nat)
    requires Resolve(s, q, k).answer.Done?
    ensures LoggedFor(Resolve(s, q, k).store.ledger, q, |s.ledger.ops|)
  {
    assert ResolveStop(s.ledger, q).None? && CandidateProblem(s.ledger, q.review, q.who, q.expected).None?;
    hide ResolveStop, ConfirmBrain, ConfirmRefusal, FindConflicts, ConfirmedRows, ConfirmedTombstones, Redirected, MarkStale;
  }

  lemma LoggedIsDuplicate(s: Store, q: ResolveRequest, n: nat, op: nat)
    requires LoggedFor(s.ledger, q, op)
    ensures Resolve(s, q, n) == Outcome(s, Duplicate(op))
  {
    assert ExistingOp(s.ledger, q.idem, q.who) == Some(op);
    hide CandidateProblem, ConfirmBrain, ConfirmRefusal, CommitConfirm, CommitClose;
  }

  lemma ResolveResumes(s: Store, q: ResolveRequest, k: nat, n: nat)
    ensures Resolve(Resolve(s, q, k).store, q, n).store == Resolve(s, q, Max(k, n)).store
    ensures Resolve(s, q, k).answer == Crashed && k <= n ==> Resolve(Resolve(s, q, k).store, q, n) == Resolve(s, q, n)
  {
    if Resolve(s, q, k).answer.Done? {
      CommittedResolveRepeats(s, q, k, n);
      DoneResolveIsFinal(s, q, k, Max(k, n));
    } else if ResolveStop(s.ledger, q).None? && q.action.CreatesFact() && k > 0 && n > 0 {
      ConfirmBrainResumes(s.ledger, s.brain, q, k, n);
      UncommittedResolveKeepsLedger(s, q, k);
      hide ResolveStop, ConfirmBrain, ConfirmRefusal, CommitConfirm;
    }
  }

  lemma UncommittedResolveKeepsLedger(s: Store, q: ResolveRequest, k: nat)
    requires ResolveStop(s.ledger, q).None? && q.action.CreatesFact() && k > 0 && !Resolve(s, q, k).answer.Done?
    ensures Resolve(s, q, k).store == s.(brain := ConfirmBrain(s.ledger, s.brain, q, k).brain)
  {
    hide ResolveStop, ConfirmBrain, ConfirmRefusal, CommitConfirm;
  }

  /** More commits than a request needs change nothing. */
  lemma DoneResolveIsFinal(s: Store, q: ResolveRequest, k: nat, n: nat)
    requires Resolve(s, q, k).answer.Done? && k <= n
    ensures Resolve(s, q, n) == Resolve(s, q, k)
  {
    hide ResolveStop, ConfirmRefusal, CommitConfirm;
  }

  // ---- revert

  lemma RevertBrainRepeats(b: Brain, q: RevertRequest, o: Op)
    ensures RevertBrain(RevertBrain(b, q, o).brain, q, o) == RevertBrain(b, q, o)
  {
    if o.ref.Some? {
      SetExpiredRepeats(b, ArchiveKey(q.review, q.idem), o.ref.value);
      if o.target.Some? { RestoreRepeats(b, RestoreKey(q.review, q.idem), o.target.value, o.ref.value); }
    }
    hide Restore, SetExpired;
  }

  lemma CommittedRevertRepeats(s: Store, q: RevertRequest, k: nat, n: nat)
    requires RevertOp(s, q, k).answer.Done?
    ensures RevertOp(RevertOp(s, q, k).store, q, n).store == RevertOp(s, q, k).store
  {
    var l' := RevertOp(s, q, k).store.ledger;
    assert ExistingOp(l', q.idem, q.who) == Some(|s.ledger.ops|);
  }

  lemma RevertResumes(s: Store, q: RevertRequest, k: nat, n: nat)
    ensures RevertOp(RevertOp(s, q, k).store, q, n).store == RevertOp(s, q, Max(k, n)).store
    ensures RevertOp(s, q, k).answer == Crashed && k <= n ==> RevertOp(RevertOp(s, q, k).store, q, n) == RevertOp(s, q, n)
  {
    if RevertOp(s, q, k).answer.Done? {
      CommittedRevertRepeats(s, q, k, n);
    } else if RevertStop(s.ledger, q).None? {
      RevertBrainRepeats(s.brain, q, s.ledger.ops[q.opId]);
    }
    hide RevertStop, RevertBrain, RevertRefusal, CommitRevert;
  }

  // ---- forget and the worker

  lemma ForgetResumes(s: Store, who: Principal, ref: FactId, k: nat, n: nat)
    ensures Forget(Forget(s, who, ref, k).store, who, ref, n).store == Forget(s, who, ref, Max(k, n)).store
    ensures Forget(s, who, ref, k).answer == Crashed && k <= n ==>
      Forget(Forget(s, who, ref, k).store, who, ref, n) == Forget(s, who, ref, n)
  {
    SetExpiredRepeats(s.brain, ForgetKey(ref, who.workspace), ref);
    hide SetExpired;
  }

  /** A worker that crashed after its GBrain commit finds the fact again under the event's key. */
  lemma WorkerResumes(s: Store, key: EventKey, k: nat, n: nat)
    requires Due(s.ledger, key) && WorkerPass(s, key, Decrypts, k).answer == Crashed && k <= n
    ensures Due(WorkerPass(s, key, Decrypts, k).store.ledger, key)
    ensures WorkerPass(WorkerPass(s, key, Decrypts, k).store, key, Decrypts, n) == WorkerPass(s, key, Decrypts, n)
  {
    UpsertRepeats(s.brain, WorkerKey(key), s.ledger.events[key].tenant, s.ledger.events[key].payload.content);
    hide Upsert;
  }

  // ---- any number of crashes

  function RetryResolve(s: Store, q: ResolveRequest, crashes: seq<nat>): Store
    decreases |crashes|
  {
    if crashes == [] then s else RetryResolve(Resolve(s, q, crashes[0]).store, q, crashes[1..])
  }

  function RetryRevert(s: Store, q: RevertRequest, crashes: seq<nat>): Store
    decreases |crashes|
  {
    if crashes == [] then s else RetryRevert(RevertOp(s, q, crashes[0]).store, q, crashes[1..])
  }

  function RetryForget(s: Store, who: Principal, ref: FactId, crashes: seq<nat>): Store
    decreases |crashes|
  {
    if crashes == [] then s else RetryForget(Forget(s, who, ref, crashes[0]).store, who, ref, crashes[1..])
  }

  /** However often and wherever a resolve crashed, completing it leaves the stores of a crash-free resolve; in
      particular its one fact is created once. */
  lemma {:induction false} CrashedResolveRecovers(s: Store, q: ResolveRequest, crashes: seq<nat>)
    requires forall i | 0 <= i < |crashes| :: crashes[i] <= 3
    ensures Resolve(RetryResolve(s, q, crashes), q, 3).store == Resolve(s, q, 3).store
    decreases |crashes|
  {
    if crashes != [] {
      ResolveResumes(s, q, crashes[0], 3);
      CrashedResolveRecovers(Resolve(s, q, crashes[0]).store, q, crashes[1..]);
    }
  }

  lemma {:induction false} CrashedRevertRecovers(s: Store, q: RevertRequest, crashes: seq<nat>)
    requires forall i | 0 <= i < |crashes| :: crashes[i] <= 3
    ensures RevertOp(RetryRevert(s, q, crashes), q, 3).store == RevertOp(s, q, 3).store
    decreases |crashes|
  {
    if crashes != [] {
      RevertResumes(s, q, crashes[0], 3);
      CrashedRevertRecovers(RevertOp(s, q, crashes[0]).store, q, crashes[1..]);
    }
  }

  lemma {:induction false} CrashedForgetRecovers(s: Store, who: Principal, ref: FactId, crashes: seq<nat>)
    requires forall i | 0 <= i < |crashes| :: crashes[i] <= 3
    ensures Forget(RetryForget(s, who, ref, crashes), who, ref, 3).store == Forget(s, who, ref, 3).store
    decreases |crashes|
  {
    if crashes != [] {
      ForgetResumes(s, who, ref, crashes[0], 3);
      CrashedForgetRecovers(Forget(s, who, ref, crashes[0]).store, who, ref, crashes[1..]);
    }
  }
}
