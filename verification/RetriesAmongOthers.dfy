/** A crashed request, then a run of complete requests by anybody, then its retry. For each kind of request this says
    exactly which runs in between leave a retry that heals the two stores. */
module RetriesAmongOthers {
  import opened Names
  import opened GBrain
  import opened Ledger
  import opened Lifecycle
  import opened LedgerInvariants
  import opened AllRuns
  import opened StoreAgreement
  import opened RetryHeals

  function After(s: Store, rs: seq<Request>): Store
    decreases |rs|
  {
    if rs == [] then s else After(Serve(s, rs[0], 3), rs[1..])
  }

  // ---- one candidate per source event

  ghost predicate SoleCandidates(l: Ledger) {
    forall v, w | 0 <= v < w < |l.reviews| :: l.reviews[v].origin != l.reviews[w].origin
  }

  /** No request but the worker's adds a candidate, and the worker adds one only for an event not yet applied. */
  lemma ServeKeepsSoleCandidates(s: Store, r: Request, commits: nat)
    requires StoreOk(s) && SoleCandidates(s.ledger)
    ensures SoleCandidates(Serve(s, r, commits).ledger)
  {
    hide KeysMatch, CommitApplied, CommitDuplicate, CommitRetry, CommitDeadLetter, CommitConfirm, CommitClose, CommitRevert,
      CommitForget, CommitRebuild, ResolveStop, RevertStop, ConfirmBrain, RevertBrain, ConfirmRefusal, RevertRefusal, Upsert,
      SetExpired, Rebuild, Sources, CommitReview, CommitSubmit, SoleCandidates, LedgerOk;
    ReviewsAfter(s, r, commits);
    var l, l' := s.ledger, Serve(s, r, commits).ledger;
    hide Serve;
    if r.Working? && Due(l, r.key) {
      AppliedCandidates(l, r.key);
    }
    OriginsStayDistinct(l, l', if r.Working? then Some(r.key) else None);
  }

  ghost predicate SameCandidates(l: Ledger, l': Ledger) {
    |l'.reviews| == |l.reviews| && forall v | 0 <= v < |l.reviews| :: l'.reviews[v].origin == l.reviews[v].origin
  }

  lemma ResolveCandidates(s: Store, q: ResolveRequest, commits: nat)
    ensures SameCandidates(s.ledger, Resolve(s, q, commits).store.ledger)
  {
    hide ResolveStop, ConfirmBrain, ConfirmRefusal, ConfirmedRows, ConfirmedTombstones, Redirected, MarkStale;
  }

  lemma RevertCandidates(s: Store, q: RevertRequest, commits: nat)
    ensures SameCandidates(s.ledger, RevertOp(s, q, commits).store.ledger)
  {
    hide RevertStop, RevertBrain, RevertRefusal, RevertedRows, RevertedTombstones, MarkStaleFor;
  }

  lemma OtherCandidates(s: Store, r: Request, commits: nat)
    requires !r.Working? && !r.Resolving? && !r.Reverting?
    ensures SameCandidates(s.ledger, Serve(s, r, commits).ledger)
  {
    hide SetExpired, Rebuild, Sources, PutTombstone, MarkStale;
  }

  lemma WorkerCandidates(s: Store, key: EventKey, luck: Luck, commits: nat)
    requires Due(s.ledger, key)
    ensures var l, l' := s.ledger, WorkerPass(s, key, luck, commits).store.ledger;
      SameCandidates(l, l') || l'.reviews == l.reviews + [Review(key, Open, 1, None)]
  {
    var l := s.ledger;
    var ref, found := WorkerEndsIn(s, key, luck, commits);
    EventCommitCandidates(l, key, ref, found);
    hide WorkerPass, CommitApplied, CommitReview, CommitDuplicate, CommitRetry, CommitDeadLetter;
  }

  /** The worker leaves the ledger as it is or with one of its five commits. */
  lemma WorkerEndsIn(s: Store, key: EventKey, luck: Luck, commits: nat) returns (ref: FactId, found: Option<FactId>)
    requires Due(s.ledger, key)
    ensures var l, l' := s.ledger, WorkerPass(s, key, luck, commits).store.ledger;
      || l' == l || l' == CommitApplied(l, key, ref) || l' == CommitReview(l, key) || l' == CommitDuplicate(l, key, found)
      || l' == CommitRetry(l, key) || l' == CommitDeadLetter(l, key)
  {
    hide WorkerPass, CommitApplied, CommitReview, CommitDuplicate, CommitRetry, CommitDeadLetter, Upsert;
    var l, e := s.ledger, s.ledger.events[key];
    var step := Upsert(s.brain, WorkerKey(key), e.tenant, e.payload.content);
    var x := ExternalKeyOf(e, if e.payload.provenance.Some? then e.payload.provenance.value else Provenance("", "", ""));
    WorkerShape(s, key, luck, commits);
    ref := if step.reply.Ok? then step.reply.ref.id else 0;
    found := if x in l.externals then l.externals[x].backendRef else None;
  }

  lemma EventCommitCandidates(l: Ledger, key: EventKey, ref: FactId, found: Option<FactId>)
    requires key in l.events
    ensures CommitReview(l, key).reviews == l.reviews + [Review(key, Open, 1, None)]
    ensures CommitApplied(l, key, ref).reviews == l.reviews && CommitDuplicate(l, key, found).reviews == l.reviews
    ensures CommitRetry(l, key).reviews == l.reviews && CommitDeadLetter(l, key).reviews == l.reviews
    ensures forall k <- CommitApplied(l, key, ref).rowByOrigin :: k == key || k in l.rowByOrigin
    ensures forall k <- l.rowByOrigin :: k in CommitApplied(l, key, ref).rowByOrigin
  {
    hide RegisterExternal, MarkStale, PutReceipt;
  }

  /** Candidates keep their events; at most one is added, by the worker, for the event it works on. */
  lemma ReviewsAfter(s: Store, r: Request, commits: nat)
    ensures var l, l' := s.ledger, Serve(s, r, commits).ledger;
      && |l.reviews| <= |l'.reviews| <= |l.reviews| + 1
      && (forall v | 0 <= v < |l.reviews| :: l'.reviews[v].origin == l.reviews[v].origin)
      && (|l'.reviews| > |l.reviews| ==> r.Working? && Due(l, r.key) && l'.reviews[|l.reviews|].origin == r.key)
  {
    hide Resolve, RevertOp, WorkerPass, Submit, Forget, RebuildCrystal;
    match r
    case Resolving(q) => ResolveCandidates(s, q, commits);
    case Reverting(q) => RevertCandidates(s, q, commits);
    case Working(key, luck) => if Due(s.ledger, key) { WorkerCandidates(s, key, luck, commits); }
    case _ => OtherCandidates(s, r, commits);
  }

  lemma AppliedCandidates(l: Ledger, key: EventKey)
    requires LedgerOk(l) && Due(l, key)
    ensures forall v | 0 <= v < |l.reviews| :: l.reviews[v].origin != key
  {
    forall v | 0 <= v < |l.reviews| ensures l.reviews[v].origin != key { assert Reviewed(l.events, l.reviews[v].origin); }
  }

  lemma OriginsStayDistinct(l: Ledger, l': Ledger, added: Option<EventKey>)
    requires SoleCandidates(l) && |l.reviews| <= |l'.reviews| <= |l.reviews| + 1
    requires forall v | 0 <= v < |l.reviews| :: l'.reviews[v].origin == l.reviews[v].origin
    requires |l'.reviews| > |l.reviews| ==> added == Some(l'.reviews[|l.reviews|].origin)
    requires |l'.reviews| > |l.reviews| ==> forall v | 0 <= v < |l.reviews| :: l.reviews[v].origin != added.value
    ensures SoleCandidates(l')
  {
  }

  lemma {:induction false} RunKeepsSoleCandidates(s: Store, attempts: seq<Attempt>)
    requires StoreOk(s) && SoleCandidates(s.ledger)
    ensures SoleCandidates(Run(s, attempts).ledger)
    decreases |attempts|
  {
    hide StoreOk, SoleCandidates, Serve;
    if attempts != [] {
      ServeKeepsSoleCandidates(s, attempts[0].request, attempts[0].commits);
      ServeKeepsStore(s, attempts[0].request, attempts[0].commits);
      RunKeepsSoleCandidates(Serve(s, attempts[0].request, attempts[0].commits), attempts[1..]);
    }
  }

  // ---- what a request leaves as it was

  predicate SameEvent(e: Event, e': Event) {
    && e'.tenant == e.tenant && e'.user == e.user && e'.workspace == e.workspace && e'.scope == e.scope && e'.payload == e.payload
    && (e.status == Applied ==> e'.status == Applied)
  }

  /** Keys, operations and submissions are never rewritten; the rows and facts of `ids` stay as they are. */
  ghost predicate Framed(s: Store, s': Store, ids: set<FactId>) {
    && (forall k <- s.brain.operations :: k in s'.brain.operations && s'.brain.operations[k] == s.brain.operations[k])
    && (forall k <- s.brain.bindings :: k in s'.brain.bindings && s'.brain.bindings[k] == s.brain.bindings[k])
    && (forall k <- s.ledger.events :: k in s'.ledger.events && SameEvent(s.ledger.events[k], s'.ledger.events[k]))
    && (forall i <- ids | i in s.ledger.rows :: i in s'.ledger.rows && s'.ledger.rows[i] == s.ledger.rows[i])
    && (forall i <- ids | i < |s.brain.facts| :: i < |s'.brain.facts| && s'.brain.facts[i] == s.brain.facts[i])
    && LogGrows(s.ledger, s'.ledger)
  }

  ghost predicate LogGrows(l: Ledger, l': Ledger) {
    && l.ops <= l'.ops && (forall k <- l.opByKey :: k in l'.opByKey)
    && |l.reviews| <= |l'.reviews|
    && (forall v | 0 <= v < |l.reviews| :: l'.reviews[v].origin == l.reviews[v].origin && l'.reviews[v].revision >= l.reviews[v].revision)
  }

  lemma FrameOfSame(s: Store, ids: set<FactId>)
    ensures Framed(s, s, ids)
  {
  }

  /** The GBrain half and the ledger half of a change, framed apart. */
  lemma FrameOfHalves(l: Ledger, b: Brain, l': Ledger, b': Brain, ids: set<FactId>)
    requires Framed(Store(l, b), Store(l', b), ids) && Framed(Store(l, b), Store(l, b'), ids)
    ensures Framed(Store(l, b), Store(l', b'), ids)
  {
  }

  /** A GBrain transaction only adds operations and bindings, and leaves the facts of `ids` alone. */
  lemma BrainFrames(l: Ledger, b: Brain, b': Brain, ids: set<FactId>)
    ensures
      && (forall k <- b.operations :: k in b'.operations && b'.operations[k] == b.operations[k])
      && (forall k <- b.bindings :: k in b'.bindings && b'.bindings[k] == b.bindings[k])
      && (forall i <- ids | i < |b.facts| :: i < |b'.facts| && b'.facts[i] == b.facts[i])
      ==> Framed(Store(l, b), Store(l, b'), ids)
  {
  }

  lemma UpsertFrames(l: Ledger, b: Brain, key: Key, source: string, content: string, ids: set<FactId>)
    ensures Framed(Store(l, b), Store(l, Upsert(b, key, source, content).brain), ids)
  {
  }

  lemma ConfirmBrainFrames(l: Ledger, b: Brain, q: ResolveRequest, ids: set<FactId>)
    requires ResolveStop(l, q).None? && (q.target.Some? ==> q.target.value !in ids)
    ensures Framed(Store(l, b), Store(l, ConfirmBrain(l, b, q, 3).brain), ids)
  {
    hide ResolveStop, Framed, Upsert, Supersede;
    var key, content := CreateKey(q.review, q.idem), ResolvedPayload(l, q).content;
    var created := Upsert(b, key, q.who.tenant, content);
    UpsertFrames(l, b, key, q.who.tenant, content, ids);
    if created.reply.Ok? && q.target.Some? {
      LinkFrames(l, created.brain, SupersedeKey(q.review, q.idem), q.target.value, created.reply.ref.id, ids);
      FramedTwice(Store(l, b), Store(l, created.brain),
                  Store(l, Supersede(created.brain, SupersedeKey(q.review, q.idem), q.target.value, created.reply.ref.id).brain), ids);
    }
  }

  lemma LinkFrames(l: Ledger, b: Brain, key: Key, oldId: FactId, newId: FactId, ids: set<FactId>)
    requires oldId !in ids
    ensures Framed(Store(l, b), Store(l, Supersede(b, key, oldId, newId).brain), ids)
  {
    hide Framed;
    BrainFrames(l, b, Supersede(b, key, oldId, newId).brain, ids);
  }

  lemma FramedTwice(a: Store, b: Store, c: Store, ids: set<FactId>)
    requires Framed(a, b, ids) && Framed(b, c, ids)
    ensures Framed(a, c, ids)
  {
  }

  lemma ConfirmFrames(l: Ledger, b: Brain, review: nat, idem: string, action: Action, payload: Payload, ref: FactId, target: Option<FactId>,
                      ids: set<FactId>)
    requires review < |l.reviews| && l.reviews[review].origin in l.events && (target.Some? ==> target.value !in ids)
    ensures Framed(Store(l, b), Store(CommitConfirm(l, review, idem, action, payload, ref, target), b), ids)
  {
  }

  lemma CloseFrames(l: Ledger, b: Brain, review: nat, idem: string, action: Action, ids: set<FactId>)
    requires review < |l.reviews| && l.reviews[review].origin in l.events
    ensures Framed(Store(l, b), Store(CommitClose(l, review, idem, action), b), ids)
  {
  }

  lemma ResolveFrames(s: Store, q: ResolveRequest, ids: set<FactId>)
    requires q.target.Some? ==> q.target.value !in ids
    ensures Framed(s, Resolve(s, q, 3).store, ids)
  {
    hide Framed, ResolveStop, ConfirmBrain, CommitConfirm, CommitClose, ConfirmRefusal;
    FrameOfSame(s, ids);
    var l, b := s.ledger, s.brain;
    if ResolveStop(l, q).None? {
      if q.action.CreatesFact() {
        ConfirmBrainFrames(l, b, q, ids);
        var step := ConfirmBrain(l, b, q, 3);
        if step.reply.Ok? {
          var target := if q.action == Supersession then q.target else None;
          ConfirmFrames(l, b, q.review, q.idem, q.action, ResolvedPayload(l, q), step.reply.ref.id, target, ids);
          FrameOfHalves(l, b, CommitConfirm(l, q.review, q.idem, q.action, ResolvedPayload(l, q), step.reply.ref.id, target), step.brain, ids);
        }
      } else {
        CloseFrames(l, b, q.review, q.idem, q.action, ids);
      }
    }
  }

  lemma RevertBrainFrames(l: Ledger, b: Brain, q: RevertRequest, o: Op, ids: set<FactId>)
    requires (RefSet(o.ref) + RefSet(o.target)) !! ids
    ensures Framed(Store(l, b), Store(l, RevertBrain(b, q, o).brain), ids)
  {
    hide Framed;
    BrainFrames(l, b, RevertBrain(b, q, o).brain, ids);
    assert (o.ref.Some? ==> o.ref.value in RefSet(o.ref)) && (o.target.Some? ==> o.target.value in RefSet(o.target));
  }

  lemma RevertFrames(l: Ledger, b: Brain, review: nat, idem: string, opId: nat, ids: set<FactId>)
    requires review < |l.reviews| && l.reviews[review].origin in l.events && opId < |l.ops|
    requires (RefSet(l.ops[opId].ref) + RefSet(l.ops[opId].target)) !! ids
    ensures Framed(Store(l, b), Store(CommitRevert(l, review, idem, opId), b), ids)
  {
    var o := l.ops[opId];
    assert (o.ref.Some? ==> o.ref.value in RefSet(o.ref)) && (o.target.Some? ==> o.target.value in RefSet(o.target));
  }

  lemma RevertOpFrames(s: Store, q: RevertRequest, ids: set<FactId>)
    requires RevertTouches(s.ledger, q) !! ids
    ensures Framed(s, RevertOp(s, q, 3).store, ids)
  {
    hide Framed, RevertStop, RevertBrain, CommitRevert, RevertRefusal;
    FrameOfSame(s, ids);
    var l, b := s.ledger, s.brain;
    if RevertStop(l, q).None? {
      var step := RevertBrain(b, q, l.ops[q.opId]);
      RevertBrainFrames(l, b, q, l.ops[q.opId], ids);
      RevertFrames(l, b, q.review, q.idem, q.opId, ids);
      FrameOfHalves(l, b, CommitRevert(l, q.review, q.idem, q.opId), step.brain, ids);
    }
  }

  lemma ForgetFrames(s: Store, who: Principal, ref: FactId, ids: set<FactId>)
    requires ref !in ids
    ensures Framed(s, Forget(s, who, ref, 3).store, ids)
  {
    hide Framed, SetExpired, CommitForget;
    var l, b := s.ledger, s.brain;
    FrameOfSame(s, ids);
    if ref in l.rows {
      var archived := SetExpired(b, ForgetKey(ref, who.workspace), ref, ArchiveOp).brain;
      ArchiveFrames(l, b, ForgetKey(ref, who.workspace), ref, ids);
      ForgottenFrames(l, b, ref, who.tenant, who.user, ids);
      FrameOfHalves(l, b, CommitForget(l, ref, who.tenant, who.user), archived, ids);
    }
  }

  lemma ArchiveFrames(l: Ledger, b: Brain, key: Key, ref: FactId, ids: set<FactId>)
    requires ref !in ids
    ensures Framed(Store(l, b), Store(l, SetExpired(b, key, ref, ArchiveOp).brain), ids)
  {
    hide Framed;
    BrainFrames(l, b, SetExpired(b, key, ref, ArchiveOp).brain, ids);
  }

  lemma ForgottenFrames(l: Ledger, b: Brain, ref: FactId, tenant: string, user: string, ids: set<FactId>)
    requires ref in l.rows && ref !in ids
    ensures Framed(Store(l, b), Store(CommitForget(l, ref, tenant, user), b), ids)
  {
  }

  lemma RebuildFrames(s: Store, who: Principal, scope: Scope, ns: string, idem: string, ids: set<FactId>)
    ensures Framed(s, RebuildCrystal(s, who, scope, ns, idem, 3).store, ids)
  {
    hide Framed, Rebuild, CommitRebuild, Sources;
    var l, b, binding := s.ledger, s.brain, ScopeBinding(who.tenant, who.user, who.workspace, scope, ns);
    var refs := Sources(l.rows, binding);
    FrameOfSame(s, ids);
    PageFrames(l, b, CrystalKey(binding, idem), who.tenant, refs, binding, ids);
    RebuiltFrames(l, b, binding, refs, ids);
    FrameOfHalves(l, b, CommitRebuild(l, binding, refs), Rebuild(b, CrystalKey(binding, idem), who.tenant, refs, binding).brain, ids);
  }

  lemma PageFrames(l: Ledger, b: Brain, key: Key, source: string, refs: set<FactId>, binding: ScopeBinding, ids: set<FactId>)
    ensures Framed(Store(l, b), Store(l, Rebuild(b, key, source, refs, binding).brain), ids)
  {
    hide Framed;
    BrainFrames(l, b, Rebuild(b, key, source, refs, binding).brain, ids);
  }

  lemma RebuiltFrames(l: Ledger, b: Brain, binding: ScopeBinding, refs: set<FactId>, ids: set<FactId>)
    ensures Framed(Store(l, b), Store(CommitRebuild(l, binding, refs), b), ids)
  {
  }

  lemma SubmitFrames(s: Store, who: Principal, id: string, scope: Scope, payload: Payload, ids: set<FactId>)
    ensures Framed(s, Submit(s, who, id, scope, payload).store, ids)
  {
    hide Framed, CommitSubmit;
    FrameOfSame(s, ids);
    var key := EventKey(who.device, id);
    if key !in s.ledger.events {
      SubmittedFrames(s.ledger, s.brain, key, Event(who.tenant, who.user, who.agent, who.workspace, scope, payload, Pending, None, None, None, 0), ids);
    }
  }

  lemma SubmittedFrames(l: Ledger, b: Brain, key: EventKey, e: Event, ids: set<FactId>)
    requires key !in l.events
    ensures Framed(Store(l, b), Store(CommitSubmit(l, key, e), b), ids)
  {
  }

  lemma EventCommitFrames(l: Ledger, b: Brain, key: EventKey, ref: FactId, found: Option<FactId>, ids: set<FactId>)
    requires Due(l, key)
    ensures Framed(Store(l, b), Store(CommitApplied(l, key, ref), b), ids) && Framed(Store(l, b), Store(CommitReview(l, key), b), ids)
    ensures Framed(Store(l, b), Store(CommitDuplicate(l, key, found), b), ids)
    ensures Framed(Store(l, b), Store(CommitRetry(l, key), b), ids) && Framed(Store(l, b), Store(CommitDeadLetter(l, key), b), ids)
  {
    hide Framed;
    OwnEventFrames(l, b, CommitApplied(l, key, ref), key, ids);
    OwnEventFrames(l, b, CommitReview(l, key), key, ids);
    OwnEventFrames(l, b, CommitDuplicate(l, key, found), key, ids);
    OwnEventFrames(l, b, CommitRetry(l, key), key, ids);
    OwnEventFrames(l, b, CommitDeadLetter(l, key), key, ids);
  }

  lemma OwnEventFrames(l: Ledger, b: Brain, l': Ledger, key: EventKey, ids: set<FactId>)
    requires Due(l, key) && key in l'.events && SameEvent(l.events[key], l'.events[key]) && l'.events == l.events[key := l'.events[key]]
    requires forall i <- l.rows :: i in l'.rows && l'.rows[i] == l.rows[i]
    requires l'.ops == l.ops && l'.opByKey == l.opByKey && l.reviews <= l'.reviews
    ensures Framed(Store(l, b), Store(l', b), ids)
  {
  }

  lemma WorkerFrames(s: Store, key: EventKey, luck: Luck, ids: set<FactId>)
    requires Due(s.ledger, key)
    ensures Framed(s, WorkerPass(s, key, luck, 3).store, ids)
  {
    hide Framed, CommitApplied, CommitReview, CommitDuplicate, CommitRetry, CommitDeadLetter, Upsert, WorkerPass;
    var l, b, e := s.ledger, s.brain, s.ledger.events[key];
    var step := Upsert(b, WorkerKey(key), e.tenant, e.payload.content);
    var x := ExternalKeyOf(e, if e.payload.provenance.Some? then e.payload.provenance.value else Provenance("", "", ""));
    var ref := if step.reply.Ok? then step.reply.ref.id else 0;
    var found := if x in l.externals then l.externals[x].backendRef else None;
    WorkerShape(s, key, luck, 3);
    FrameOfSame(s, ids);
    UpsertFrames(l, b, WorkerKey(key), e.tenant, e.payload.content, ids);
    EventCommitFrames(l, b, key, ref, found, ids);
    FrameOfHalves(l, b, CommitApplied(l, key, ref), step.brain, ids);
    FrameOfHalves(l, b, CommitReview(l, key), step.brain, ids);
    FrameOfHalves(l, b, CommitDuplicate(l, key, found), step.brain, ids);
    FrameOfHalves(l, b, CommitRetry(l, key), step.brain, ids);
    FrameOfHalves(l, b, CommitDeadLetter(l, key), step.brain, ids);
  }

  /** The request names or undoes none of `ids`. */
  predicate Spares(l: Ledger, r: Request, ids: set<FactId>) {
    match r
    case Resolving(q) => q.target.Some? ==> q.target.value !in ids
    case Reverting(q) => RevertTouches(l, q) !! ids
    case Forgetting(_, ref) => ref !in ids
    case _ => true
  }

  lemma ServeFrames(s: Store, r: Request, ids: set<FactId>)
    requires Spares(s.ledger, r, ids)
    ensures Framed(s, Serve(s, r, 3), ids)
  {
    hide Framed, Resolve, RevertOp, Forget, RebuildCrystal, Submit, WorkerPass;
    match r
    case Submitting(who, id, scope, payload) => SubmitFrames(s, who, id, scope, payload, ids);
    case Working(key, luck) => if Due(s.ledger, key) { WorkerFrames(s, key, luck, ids); } else { FrameOfSame(s, ids); }
    case Resolving(q) => ResolveFrames(s, q, ids);
    case Reverting(q) => RevertOpFrames(s, q, ids);
    case Forgetting(who, ref) => ForgetFrames(s, who, ref, ids);
    case Rebuilding(who, scope, ns, idem) => RebuildFrames(s, who, scope, ns, idem, ids);
  }

  // ---- the candidate a retry depends on

  /** The request commits an operation of candidate v, or takes the key. */
  predicate Commits(s: Store, r: Request, v: nat, idem: string) {
    match r
    case Resolving(p) => (p.review == v || p.idem == idem) && Resolve(s, p, 3).answer.Done?
    case Reverting(p) => (p.review == v || p.idem == idem) && RevertOp(s, p, 3).answer.Done?
    case _ => false
  }

  ghost predicate CandidateFramed(l: Ledger, l': Ledger, v: nat, idem: string)
    requires v < |l.reviews|
  {
    && v < |l'.reviews| && l'.reviews[v] == l.reviews[v]
    && (idem in l'.opByKey <==> idem in l.opByKey)
    && (l.reviews[v].origin in l'.rowByOrigin <==> l.reviews[v].origin in l.rowByOrigin)
  }

  lemma ResolveKeepsCandidate(s: Store, p: ResolveRequest, v: nat, idem: string)
    requires SoleCandidates(s.ledger) && v < |s.ledger.reviews| && !Commits(s, Resolving(p), v, idem)
    ensures CandidateFramed(s.ledger, Resolve(s, p, 3).store.ledger, v, idem)
  {
    hide ConfirmBrain, ConfirmRefusal, CommitConfirm, ResolveStop, CandidateFramed, SoleCandidates;
    var l := s.ledger;
    SameCandidate(l, v, idem);
    if Resolve(s, p, 3).answer.Done? {
      if p.action.CreatesFact() {
        ConfirmKeepsCandidate(l, p.review, p.idem, p.action, ResolvedPayload(l, p), ConfirmBrain(l, s.brain, p, 3).reply.ref.id,
                              if p.action == Supersession then p.target else None, v, idem);
      } else {
        CloseKeepsCandidate(l, p.review, p.idem, p.action, v, idem);
      }
    }
  }

  lemma ConfirmKeepsCandidate(l: Ledger, review: nat, key: string, action: Action, payload: Payload, ref: FactId, target: Option<FactId>,
                              v: nat, idem: string)
    requires SoleCandidates(l) && review < |l.reviews| && l.reviews[review].origin in l.events
    requires v < |l.reviews| && review != v && key != idem
    ensures CandidateFramed(l, CommitConfirm(l, review, key, action, payload, ref, target), v, idem)
  {
    assert l.reviews[review].origin != l.reviews[v].origin;
    hide ConfirmedRows, ConfirmedTombstones, Redirected, MarkStale, SoleCandidates;
  }

  lemma CloseKeepsCandidate(l: Ledger, review: nat, key: string, action: Action, v: nat, idem: string)
    requires review < |l.reviews| && l.reviews[review].origin in l.events && v < |l.reviews| && review != v && key != idem
    ensures CandidateFramed(l, CommitClose(l, review, key, action), v, idem)
  {
  }

  lemma RevertKeepsCandidate(s: Store, p: RevertRequest, v: nat, idem: string)
    requires v < |s.ledger.reviews| && !Commits(s, Reverting(p), v, idem)
    ensures CandidateFramed(s.ledger, RevertOp(s, p, 3).store.ledger, v, idem)
  {
    hide RevertBrain, RevertRefusal, RevertedRows, RevertedTombstones, MarkStaleFor, RevertStop;
  }

  lemma WorkerKeepsCandidate(s: Store, key: EventKey, luck: Luck, v: nat, idem: string)
    requires Due(s.ledger, key) && v < |s.ledger.reviews| && s.ledger.reviews[v].origin != key
    ensures CandidateFramed(s.ledger, WorkerPass(s, key, luck, 3).store.ledger, v, idem)
  {
    hide WorkerPass, CommitApplied, CommitReview, CommitDuplicate, CommitRetry, CommitDeadLetter, CandidateFramed;
    var l := s.ledger;
    var ref, found := WorkerEndsIn(s, key, luck, 3);
    EventCommitCandidates(l, key, ref, found);
    EventCommitKeys(l, key, ref, found);
    SameCandidate(l, v, idem);
    OtherEventKeepsCandidate(l, CommitApplied(l, key, ref), key, v, idem);
    OtherEventKeepsCandidate(l, CommitReview(l, key), key, v, idem);
    OtherEventKeepsCandidate(l, CommitDuplicate(l, key, found), key, v, idem);
    OtherEventKeepsCandidate(l, CommitRetry(l, key), key, v, idem);
    OtherEventKeepsCandidate(l, CommitDeadLetter(l, key), key, v, idem);
  }

  lemma OtherEventKeepsCandidate(l: Ledger, l': Ledger, key: EventKey, v: nat, idem: string)
    requires v < |l.reviews| && l.reviews[v].origin != key && l'.opByKey == l.opByKey
    requires l'.reviews == l.reviews || l'.reviews == l.reviews + [Review(key, Open, 1, None)]
    requires (forall k <- l'.rowByOrigin :: k == key || k in l.rowByOrigin) && forall k <- l.rowByOrigin :: k in l'.rowByOrigin
    ensures CandidateFramed(l, l', v, idem)
  {
  }

  lemma EventCommitKeys(l: Ledger, key: EventKey, ref: FactId, found: Option<FactId>)
    requires key in l.events
    ensures CommitApplied(l, key, ref).opByKey == l.opByKey && CommitReview(l, key).opByKey == l.opByKey
    ensures CommitDuplicate(l, key, found).opByKey == l.opByKey && CommitRetry(l, key).opByKey == l.opByKey
    ensures CommitDeadLetter(l, key).opByKey == l.opByKey
    ensures CommitReview(l, key).rowByOrigin == l.rowByOrigin && CommitDuplicate(l, key, found).rowByOrigin == l.rowByOrigin
    ensures CommitRetry(l, key).rowByOrigin == l.rowByOrigin && CommitDeadLetter(l, key).rowByOrigin == l.rowByOrigin
  {
    hide RegisterExternal, MarkStale, PutReceipt;
  }

  lemma OthersKeepCandidate(s: Store, r: Request, v: nat, idem: string)
    requires v < |s.ledger.reviews| && !r.Working? && !r.Resolving? && !r.Reverting?
    ensures CandidateFramed(s.ledger, Serve(s, r, 3).ledger, v, idem)
  {
    hide CandidateFramed, CommitForget, CommitRebuild, CommitSubmit, SetExpired, Rebuild, Sources;
    var l, l' := s.ledger, Serve(s, r, 3).ledger;
    SameCandidate(l, v, idem);
    match r
    case Submitting(who, id, scope, payload) =>
      SubmitKeepsCandidate(l, EventKey(who.device, id), Event(who.tenant, who.user, who.agent, who.workspace, scope, payload, Pending, None, None, None, 0),
                           v, idem);
    case Forgetting(who, ref) => if ref in l.rows { ForgetKeepsCandidate(l, ref, who.tenant, who.user, v, idem); }
    case Rebuilding(who, scope, ns, _) =>
      var binding := ScopeBinding(who.tenant, who.user, who.workspace, scope, ns);
      RebuildKeepsCandidate(l, binding, Sources(l.rows, binding), v, idem);
    case _ =>
  }

  lemma SubmitKeepsCandidate(l: Ledger, key: EventKey, e: Event, v: nat, idem: string)
    requires v < |l.reviews|
    ensures CandidateFramed(l, CommitSubmit(l, key, e), v, idem)
  {
  }

  lemma ForgetKeepsCandidate(l: Ledger, ref: FactId, tenant: string, user: string, v: nat, idem: string)
    requires v < |l.reviews| && ref in l.rows
    ensures CandidateFramed(l, CommitForget(l, ref, tenant, user), v, idem)
  {
  }

  lemma RebuildKeepsCandidate(l: Ledger, binding: ScopeBinding, refs: set<FactId>, v: nat, idem: string)
    requires v < |l.reviews|
    ensures CandidateFramed(l, CommitRebuild(l, binding, refs), v, idem)
  {
  }

  /** A request that does not commit on the candidate or take the key leaves both as they were. */
  lemma UncommittedKeepsCandidate(s: Store, r: Request, v: nat, idem: string)
    requires StoreOk(s) && SoleCandidates(s.ledger) && v < |s.ledger.reviews| && !Commits(s, r, v, idem)
    ensures CandidateFramed(s.ledger, Serve(s, r, 3).ledger, v, idem)
  {
    hide CandidateFramed, Resolve, RevertOp, WorkerPass, Submit, Forget, RebuildCrystal, SoleCandidates, LedgerOk, KeysMatch;
    match r
    case Resolving(p) => ResolveKeepsCandidate(s, p, v, idem);
    case Reverting(p) => RevertKeepsCandidate(s, p, v, idem);
    case Working(key, luck) =>
      if Due(s.ledger, key) {
        AppliedCandidates(s.ledger, key);
        WorkerKeepsCandidate(s, key, luck, v, idem);
      } else {
        SameCandidate(s.ledger, v, idem);
      }
    case _ => OthersKeepCandidate(s, r, v, idem);
  }

  lemma SameCandidate(l: Ledger, v: nat, idem: string)
    requires v < |l.reviews|
    ensures CandidateFramed(l, l, v, idem)
  {
  }

  // ---- a crashed supersession

  /** The guards of a supersession still pass when its candidate, its event and its target are untouched. */
  lemma StopFramed(s: Store, s': Store, q: ResolveRequest)
    requires ResolveStop(s.ledger, q).None? && q.action == Supersession && q.idem !in s.ledger.opByKey
    requires Framed(s, s', {q.target.value}) && CandidateFramed(s.ledger, s'.ledger, q.review, q.idem)
    ensures ResolveStop(s'.ledger, q).None?
  {
    assert q.target.value in {q.target.value};
    assert q.target.value in ConflictsFor(s.ledger, q);
    assert q.target.value in ConflictsFor(s'.ledger, q);
  }

  lemma HalfSupersededFramed(s: Store, s': Store, q: ResolveRequest)
    requires HalfSuperseded(s, q) && Framed(s, s', {q.target.value}) && CandidateFramed(s.ledger, s'.ledger, q.review, q.idem)
    ensures HalfSuperseded(s', q)
  {
    StopFramed(s, s', q);
    assert q.target.value in {q.target.value};
    hide ResolveStop;
  }

  /** Something else was committed on the candidate, or under the key, while the target is superseded in GBrain only. */
  ghost predicate Abandoned(s: Store, q: ResolveRequest) {
    var l, b := s.ledger, s.brain;
    && q.review < |l.reviews| && q.action == Supersession && q.target.Some?
    && (q.idem in l.opByKey || l.reviews[q.review].revision > q.expected)
    && q.target.value in l.rows && l.rows[q.target.value].status == Active
    && q.target.value < |b.facts| && b.facts[q.target.value].supersededBy.Some?
  }

  lemma AbandonedFramed(s: Store, s': Store, q: ResolveRequest)
    requires Abandoned(s, q) && Framed(s, s', {q.target.value})
    ensures Abandoned(s', q)
  {
    assert q.target.value in {q.target.value};
  }

  lemma ResolveAdvances(s: Store, p: ResolveRequest)
    requires Resolve(s, p, 3).answer.Done?
    ensures var l, l' := s.ledger, Resolve(s, p, 3).store.ledger;
      && p.review < |l.reviews| && |l'.reviews| == |l.reviews| && l'.reviews[p.review].revision == l.reviews[p.review].revision + 1
      && p.idem in l'.opByKey && l.reviews[p.review].revision == p.expected
  {
    hide ConfirmBrain, ConfirmRefusal, ResolveStop, CommitConfirm, CommitClose;
    PassedGuards(s.ledger, p);
    if p.action.CreatesFact() {
      ConfirmAdvances(s.ledger, p, ConfirmBrain(s.ledger, s.brain, p, 3).reply.ref.id);
    } else {
      CloseAdvances(s.ledger, p);
    }
  }

  lemma PassedGuards(l: Ledger, p: ResolveRequest)
    requires ResolveStop(l, p).None?
    ensures p.review < |l.reviews| && l.reviews[p.review].revision == p.expected && l.reviews[p.review].origin in l.events
  {
    hide FindConflicts;
  }

  lemma ConfirmAdvances(l: Ledger, p: ResolveRequest, ref: FactId)
    requires p.review < |l.reviews| && l.reviews[p.review].origin in l.events
    ensures var l' := CommitConfirm(l, p.review, p.idem, p.action, ResolvedPayload(l, p), ref, if p.action == Supersession then p.target else None);
      |l'.reviews| == |l.reviews| && l'.reviews[p.review].revision == l.reviews[p.review].revision + 1 && p.idem in l'.opByKey
  {
    hide ConfirmedRows, ConfirmedTombstones, Redirected, MarkStale, ResolvedPayload, BindingOf;
  }

  lemma CloseAdvances(l: Ledger, p: ResolveRequest)
    requires p.review < |l.reviews| && l.reviews[p.review].origin in l.events
    ensures var l' := CommitClose(l, p.review, p.idem, p.action);
      |l'.reviews| == |l.reviews| && l'.reviews[p.review].revision == l.reviews[p.review].revision + 1 && p.idem in l'.opByKey
  {
  }

  lemma RevertAdvances(s: Store, p: RevertRequest)
    requires RevertOp(s, p, 3).answer.Done?
    ensures var l, l' := s.ledger, RevertOp(s, p, 3).store.ledger;
      && p.review < |l.reviews| && |l'.reviews| == |l.reviews| && l'.reviews[p.review].revision == l.reviews[p.review].revision + 1
      && p.idem in l'.opByKey && l.reviews[p.review].revision == p.expected
  {
    hide RevertBrain, RevertRefusal, RevertedRows, RevertedTombstones, MarkStaleFor, AlreadyCompensated;
  }

  lemma CommitAdvances(s: Store, r: Request, v: nat, idem: string)
    requires v < |s.ledger.reviews| && Commits(s, r, v, idem)
    ensures var l, l' := s.ledger, Serve(s, r, 3).ledger;
      |l'.reviews| == |l.reviews| && (idem in l'.opByKey || l'.reviews[v].revision == l.reviews[v].revision + 1)
  {
    hide Resolve, RevertOp;
    if r.Resolving? { ResolveAdvances(s, r.resolve); } else { RevertAdvances(s, r.revert); }
  }

  lemma CommittingAbandons(s: Store, r: Request, q: ResolveRequest)
    requires HalfSuperseded(s, q) && Spares(s.ledger, r, {q.target.value}) && Commits(s, r, q.review, q.idem)
    ensures Abandoned(Serve(s, r, 3), q)
  {
    hide ResolveStop, Resolve, RevertOp, Framed;
    var t, s' := q.target.value, Serve(s, r, 3);
    HalfIsSuperseded(s, q);
    ServeFrames(s, r, {t});
    FramedTarget(s, s', t);
    CommitAdvances(s, r, q.review, q.idem);
  }

  lemma FramedTarget(s: Store, s': Store, i: FactId)
    requires Framed(s, s', {i}) && i in s.ledger.rows && i < |s.brain.facts|
    ensures i in s'.ledger.rows && s'.ledger.rows[i] == s.ledger.rows[i] && i < |s'.brain.facts| && s'.brain.facts[i] == s.brain.facts[i]
  {
    assert i in {i};
  }

  lemma HalfIsSuperseded(s: Store, q: ResolveRequest)
    requires HalfSuperseded(s, q)
    ensures q.review < |s.ledger.reviews| && s.ledger.reviews[q.review].revision == q.expected && q.target.Some?
    ensures q.target.value in s.ledger.rows && s.ledger.rows[q.target.value].status == Active
  {
    TargetOfResolve(s.ledger, q);
  }

  /** The retry of an abandoned supersession changes neither row nor fact of its target. */
  lemma AbandonedRetry(s: Store, q: ResolveRequest, except: set<FactId>)
    requires Abandoned(s, q) && q.target.value !in except
    ensures var s' := Resolve(s, q, 3).store; !Agree(s'.ledger, s'.brain, except)
  {
    AbandonedRetryStores(s, q);
    var s' := Resolve(s, q, 3).store;
    hide Resolve;
    DisagreeAt(s'.ledger, s'.brain, q.target.value, except);
  }

  lemma AbandonedRetryStores(s: Store, q: ResolveRequest)
    requires Abandoned(s, q)
    ensures var s', t := Resolve(s, q, 3).store, q.target.value;
      s'.ledger == s.ledger && t < |s'.brain.facts| && s'.brain.facts[t] == s.brain.facts[t]
  {
    if ResolveStop(s.ledger, q).None? {
      assert CandidateProblem(s.ledger, q.review, q.who, q.expected).None?;
    }
    hide ResolveStop;
  }

  // ---- runs of requests on other facts

  /** When its turn comes, no request of the run touches an excepted reference, uses an open pair, or strands. */
  ghost predicate ForeignRun(s: Store, rs: seq<Request>, except: set<FactId>, open: set<Pair>)
    decreases |rs|
  {
    rs == [] || (Foreign(s, rs[0], except, open) && ForeignRun(Serve(s, rs[0], 3), rs[1..], except, open))
  }

  predicate EverCommits(s: Store, rs: seq<Request>, v: nat, idem: string)
    decreases |rs|
  {
    rs != [] && (Commits(s, rs[0], v, idem) || EverCommits(Serve(s, rs[0], 3), rs[1..], v, idem))
  }

  lemma ForeignSpares(s: Store, r: Request, except: set<FactId>, open: set<Pair>, ids: set<FactId>)
    requires Foreign(s, r, except, open) && ids <= except
    ensures Spares(s.ledger, r, ids)
  {
    hide ResolveStrands, RevertStrands;
  }

  lemma {:induction false} AbandonedRun(s: Store, q: ResolveRequest, rs: seq<Request>, except: set<FactId>, open: set<Pair>)
    requires Abandoned(s, q) && q.target.value in except && ForeignRun(s, rs, except, open)
    ensures Abandoned(After(s, rs), q)
    decreases |rs|
  {
    if rs != [] {
      var t := q.target.value;
      ForeignSpares(s, rs[0], except, open, {t});
      ServeFrames(s, rs[0], {t});
      AbandonedFramed(s, Serve(s, rs[0], 3), q);
      hide Abandoned, Serve, Foreign, Framed;
      AbandonedRun(Serve(s, rs[0], 3), q, rs[1..], except, open);
    }
  }

  lemma {:induction false} HalfSupersededRun(s: Store, q: ResolveRequest, rs: seq<Request>, except: set<FactId>, open: set<Pair>)
    requires Consistent(s, except, open) && SoleCandidates(s.ledger) && HalfSuperseded(s, q)
    requires q.target.value in except && ForeignRun(s, rs, except, open)
    ensures var s' := After(s, rs);
      && Consistent(s', except, open)
      && if EverCommits(s, rs, q.review, q.idem) then Abandoned(s', q) else HalfSuperseded(s', q)
    decreases |rs|
  {
    hide Consistent, SoleCandidates, Serve, Foreign, HalfSuperseded, Abandoned, Commits;
    if rs != [] {
      var s' := Serve(s, rs[0], 3);
      HalfSupersededStep(s, q, rs[0], except, open);
      if Commits(s, rs[0], q.review, q.idem) {
        AbandonedRun(s', q, rs[1..], except, open);
        ForeignRunKeepsConsistent(s', rs[1..], except, open);
      } else {
        HalfSupersededRun(s', q, rs[1..], except, open);
      }
    }
  }

  lemma HalfSupersededStep(s: Store, q: ResolveRequest, r: Request, except: set<FactId>, open: set<Pair>)
    requires Consistent(s, except, open) && SoleCandidates(s.ledger) && HalfSuperseded(s, q)
    requires q.target.value in except && Foreign(s, r, except, open)
    ensures var s' := Serve(s, r, 3);
      && Consistent(s', except, open) && SoleCandidates(s'.ledger)
      && if Commits(s, r, q.review, q.idem) then q.target.Some? && Abandoned(s', q) else HalfSuperseded(s', q)
  {
    hide Consistent, SoleCandidates, Serve, Framed, Abandoned, Commits, CandidateFramed, ResolveStop, HalfSuperseded, StoreOk, Foreign, Spares;
    HalfIsSuperseded(s, q);
    var s', t := Serve(s, r, 3), q.target.value;
    ConsistentStore(s, except, open);
    ForeignKeepsConsistent(s, r, except, open);
    ServeKeepsSoleCandidates(s, r, 3);
    ForeignSpares(s, r, except, open, {t});
    ServeFrames(s, r, {t});
    if Commits(s, r, q.review, q.idem) {
      CommittingAbandons(s, r, q);
    } else {
      UncommittedKeepsCandidate(s, r, q.review, q.idem);
      HalfSupersededFramed(s, s', q);
    }
  }

  lemma ConsistentStore(s: Store, except: set<FactId>, open: set<Pair>)
    requires Consistent(s, except, open)
    ensures StoreOk(s)
  {
  }

  lemma {:induction false} ForeignRunKeepsConsistent(s: Store, rs: seq<Request>, except: set<FactId>, open: set<Pair>)
    requires Consistent(s, except, open) && ForeignRun(s, rs, except, open)
    ensures Consistent(After(s, rs), except, open)
    decreases |rs|
  {
    if rs != [] {
      hide Consistent, Serve, Foreign;
      ForeignKeepsConsistent(s, rs[0], except, open);
      ForeignRunKeepsConsistent(Serve(s, rs[0], 3), rs[1..], except, open);
    }
  }

  /** A supersession crashed after its second GBrain commit, then any requests on other facts, then its retry. The
      retry completes and heals the stores exactly when nothing in between committed on its candidate or took its
      key; otherwise it changes nothing and the target stays superseded in GBrain alone. */
  lemma SupersessionHealsExactly(s: Store, q: ResolveRequest, rs: seq<Request>, except: set<FactId>, open: set<Pair>)
    requires Consistent(s, except, open) && SoleCandidates(s.ledger)
    requires ResolveStop(s.ledger, q).None? && !ResolveStrands(s, q) && q.action == Supersession && q.idem !in s.ledger.opByKey
    requires q.target.value !in except && (q.review, q.idem) !in open
    requires ForeignRun(Resolve(s, q, 2).store, rs, except + {q.target.value}, open + {(q.review, q.idem)})
    ensures var crashed := Resolve(s, q, 2).store;
      var retried := Resolve(After(crashed, rs), q, 3);
      if EverCommits(crashed, rs, q.review, q.idem) then !Agree(retried.store.ledger, retried.store.brain, except)
      else retried.answer.Done? && Consistent(retried.store, except, open)
  {
    hide Consistent, SoleCandidates, HalfSuperseded, Abandoned, ResolveStop, ResolveStrands, ForeignRun, After, EverCommits, Serve, Resolve, StoreOk,
      Agree;
    var crashed, t, pair := Resolve(s, q, 2).store, q.target.value, (q.review, q.idem);
    CrashedSupersession(s, q, except, open);
    ConsistentStore(s, except, open);
    ServeOfResolve(s, q, 2);
    ServeKeepsSoleCandidates(s, Resolving(q), 2);
    HalfSupersededRun(crashed, q, rs, except + {t}, open + {pair});
    var later := After(crashed, rs);
    if EverCommits(crashed, rs, q.review, q.idem) {
      AbandonedRetry(later, q, except);
    } else {
      RetriedSupersessionHeals(later, q, except + {t}, open + {pair});
      assert except + {t} - {t} == except && open + {pair} - {pair} == open;
    }
  }

  /** Such an abandonment is always possible: archiving the candidate under any unused key touches no fact, passes every
      guard the crashed supersession passed, and commits. */
  lemma ArchivingAbandons(s: Store, q: ResolveRequest, key: string, except: set<FactId>, open: set<Pair>)
    requires HalfSuperseded(s, q) && key !in s.ledger.opByKey && (q.review, key) !in open
    ensures var archive := Resolving(ResolveRequest(q.who, q.review, Archive, q.expected, key, q.edited, q.approved, None));
      Foreign(s, archive, except, open) && Commits(s, archive, q.review, q.idem)
  {
    var a := ResolveRequest(q.who, q.review, Archive, q.expected, key, q.edited, q.approved, None);
    ArchivePasses(s.ledger, q, a);
    hide ResolveStop, CommitClose;
  }

  lemma ArchivePasses(l: Ledger, q: ResolveRequest, a: ResolveRequest)
    requires ResolveStop(l, q).None? && q.action == Supersession && a.idem !in l.opByKey
    requires a == q.(action := Archive, idem := a.idem, target := None)
    ensures ResolveStop(l, a).None?
  {
    assert CandidateProblem(l, q.review, q.who, q.expected).None?;
  }

  lemma ServeOfResolve(s: Store, q: ResolveRequest, commits: nat)
    ensures Serve(s, Resolving(q), commits) == Resolve(s, q, commits).store
  {
  }

  // ---- a crashed forget

  /** GBrain has archived the memory under its forget key; its row is still active. */
  ghost predicate HalfForgotten(s: Store, who: Principal, ref: FactId) {
    var l, b := s.ledger, s.brain;
    && OwnedRow(l.rows, ref, who.tenant, who.user) && l.rows[ref].binding.workspace == who.workspace
    && l.rows[ref].status == Active && ref < |b.facts| && b.facts[ref].expired
    && l.rows[ref].supersededBy == b.facts[ref].supersededBy
    && ForgetKey(ref, who.workspace) in b.operations
    && b.operations[ForgetKey(ref, who.workspace)] == Operation(ArchiveOp, OnFact(ref), FactRef(ref))
  }

  lemma CrashedForgetIsHalf(s: Store, who: Principal, ref: FactId, except: set<FactId>, open: set<Pair>)
    requires Consistent(s, except, open) && ref !in except && Forget(s, who, ref, 1).answer == Crashed
    ensures HalfForgotten(Forget(s, who, ref, 1).store, who, ref)
  {
    hide LedgerOk;
    var b, key := s.brain, ForgetKey(ref, who.workspace);
    assert ref in s.ledger.rows && ref < |b.facts| && b.facts[ref].Live();
    assert key !in b.bindings && key !in b.operations;
    hide KeysMatch, Agree, KeysSpent;
  }

  lemma HalfForgottenFramed(s: Store, s': Store, who: Principal, ref: FactId)
    requires HalfForgotten(s, who, ref) && Framed(s, s', {ref})
    ensures HalfForgotten(s', who, ref)
  {
    assert ref in {ref};
  }

  lemma {:induction false} HalfForgottenRun(s: Store, who: Principal, ref: FactId, rs: seq<Request>, except: set<FactId>, open: set<Pair>)
    requires HalfForgotten(s, who, ref) && ref in except && ForeignRun(s, rs, except, open)
    ensures HalfForgotten(After(s, rs), who, ref)
    decreases |rs|
  {
    if rs != [] {
      hide HalfForgotten, Serve, Foreign, Framed;
      ForeignSpares(s, rs[0], except, open, {ref});
      ServeFrames(s, rs[0], {ref});
      HalfForgottenFramed(s, Serve(s, rs[0], 3), who, ref);
      HalfForgottenRun(Serve(s, rs[0], 3), who, ref, rs[1..], except, open);
    }
  }

  /** A crashed forget, then any requests on other facts: its retry always completes and heals the stores. */
  lemma ForgetHeals(s: Store, who: Principal, ref: FactId, rs: seq<Request>, except: set<FactId>, open: set<Pair>)
    requires Consistent(s, except, open) && ref !in except && Forget(s, who, ref, 1).answer == Crashed
    requires ForeignRun(Forget(s, who, ref, 1).store, rs, except + {ref}, open)
    ensures var retried := Forget(After(Forget(s, who, ref, 1).store, rs), who, ref, 3);
      retried.answer == Settled(Archived) && Consistent(retried.store, except, open)
  {
    hide Consistent, HalfForgotten, ForeignRun, After;
    var crashed := Forget(s, who, ref, 1).store;
    CrashedForget(s, who, ref, except, open);
    CrashedForgetIsHalf(s, who, ref, except, open);
    hide Forget;
    HalfForgottenRun(crashed, who, ref, rs, except + {ref}, open);
    ForeignRunKeepsConsistent(crashed, rs, except + {ref}, open);
    HalfForgottenRetry(After(crashed, rs), who, ref, except + {ref}, open);
    assert except + {ref} - {ref} == except;
  }

  lemma HalfForgottenRetry(s: Store, who: Principal, ref: FactId, except: set<FactId>, open: set<Pair>)
    requires Consistent(s, except, open) && HalfForgotten(s, who, ref)
    ensures Forget(s, who, ref, 3).answer == Settled(Archived) && Consistent(Forget(s, who, ref, 3).store, except - {ref}, open)
  {
    hide Consistent;
    RetriedForgetHeals(s, who, ref, except, open);
    assert Forget(s, who, ref, 3) == Forget(s, who, ref, 2);
  }

  // ---- a crashed revert

  /** A revert of the operation that created the target of o, under a pair of its own. */
  predicate OnTarget(l: Ledger, r: Request, o: Op, except: set<FactId>, open: set<Pair>) {
    && r.Reverting? && r.revert.opId < |l.ops| && o.target.Some? && l.ops[r.revert.opId].ref == o.target
    && (r.revert.review, r.revert.idem) !in open
    && (l.ops[r.revert.opId].target.Some? ==> l.ops[r.revert.opId].target.value !in except)
  }

  /** GBrain commits such a revert: its guards pass, its key is new and its transaction succeeds. */
  predicate Retires(s: Store, r: Request, o: Op) {
    && r.Reverting? && r.revert.opId < |s.ledger.ops| && o.target.Some? && s.ledger.ops[r.revert.opId].ref == o.target
    && RevertStop(s.ledger, r.revert).None?
    && RevertKey(r.revert, s.ledger.ops[r.revert.opId]) !in s.brain.operations
    && RevertBrain(s.brain, r.revert, s.ledger.ops[r.revert.opId]).reply.Ok?
  }

  /** Every request of the run touches other facts only, or is a revert of the operation that created the target. */
  ghost predicate RevertRun(s: Store, rs: seq<Request>, o: Op, except: set<FactId>, open: set<Pair>)
    decreases |rs|
  {
    rs == [] || ((Foreign(s, rs[0], except, open) || OnTarget(s.ledger, rs[0], o, except, open))
                 && RevertRun(Serve(s, rs[0], 3), rs[1..], o, except, open))
  }

  predicate EverRetires(s: Store, rs: seq<Request>, o: Op)
    decreases |rs|
  {
    rs != [] && (Retires(s, rs[0], o) || EverRetires(Serve(s, rs[0], 3), rs[1..], o))
  }

  /** The target's row still names its successor, its fact no longer does. */
  ghost predicate LinksApart(s: Store, o: Op) {
    o.target.Some? ==>
      && o.target.value in s.ledger.rows && s.ledger.rows[o.target.value].supersededBy == o.ref
      && o.target.value < |s.brain.facts| && s.brain.facts[o.target.value].supersededBy.None?
  }

  /** What any request of the run leaves of the target: its row's pointer, its fact's pointer, and its expiry. */
  ghost predicate TargetFramed(s: Store, s': Store, o: Op) {
    o.target.Some? ==>
      var t := o.target.value;
      && (t in s.ledger.rows ==> t in s'.ledger.rows && s'.ledger.rows[t].supersededBy == s.ledger.rows[t].supersededBy)
      && (t < |s.brain.facts| ==> t < |s'.brain.facts| && s'.brain.facts[t].supersededBy == s.brain.facts[t].supersededBy
                                  && (s.brain.facts[t].expired ==> s'.brain.facts[t].expired))
  }

  lemma FramedIsTargetFramed(s: Store, s': Store, o: Op)
    requires o.ref.Some? && Framed(s, s', RefSet(o.ref) + RefSet(o.target))
    ensures Framed(s, s', RefSet(o.ref)) && TargetFramed(s, s', o)
  {
    assert o.target.Some? ==> o.target.value in RefSet(o.target);
    SmallerFrame(s, s', RefSet(o.ref) + RefSet(o.target), RefSet(o.ref));
  }

  lemma SmallerFrame(s: Store, s': Store, ids: set<FactId>, fewer: set<FactId>)
    requires Framed(s, s', ids) && fewer <= ids
    ensures Framed(s, s', fewer)
  {
  }

  lemma RetiringBrain(b: Brain, p: RevertRequest, o': Op, t: FactId)
    requires o'.ref == Some(t) && o'.target != o'.ref
    ensures var b' := RevertBrain(b, p, o').brain;
      t < |b.facts| ==>
        && t < |b'.facts| && b'.facts[t].supersededBy == b.facts[t].supersededBy && (b.facts[t].expired ==> b'.facts[t].expired)
  {
  }

  lemma RetiringRows(l: Ledger, review: nat, idem: string, opId: nat, t: FactId)
    requires review < |l.reviews| && l.reviews[review].origin in l.events && opId < |l.ops|
    requires l.ops[opId].ref == Some(t) && l.ops[opId].target != l.ops[opId].ref
    ensures var rows := CommitRevert(l, review, idem, opId).rows;
      t in l.rows ==> t in rows && rows[t].supersededBy == l.rows[t].supersededBy
  {
  }

  lemma OnTargetFrames(s: Store, r: Request, o: Op, except: set<FactId>, open: set<Pair>)
    requires StoreOk(s) && OnTarget(s.ledger, r, o, except, open) && o.ref.Some? && o.ref.value in except && o.target != o.ref
    ensures Framed(s, Serve(s, r, 3), RefSet(o.ref)) && TargetFramed(s, Serve(s, r, 3), o)
  {
    hide RevertStop, RevertBrain, CommitRevert, RevertRefusal, Framed, StoreOk, TargetFramed, RevertOp;
    var l, p := s.ledger, r.revert;
    var o' := l.ops[p.opId];
    assert RevertTouches(l, p) !! RefSet(o.ref) by {
      assert RefSet(o'.ref) == {o.target.value} && o.ref.value !in RefSet(o'.target);
    }
    RevertOpFrames(s, p, RefSet(o.ref));
    if RevertStop(l, p).None? {
      StoreParts(s);
      OpRefsDiffer(l, p);
      RetiringBrain(s.brain, p, o', o.target.value);
      RetiringRows(l, p.review, p.idem, p.opId, o.target.value);
      RevertCommitsBoth(s, p, 3);
      RetiredTarget(s, RevertOp(s, p, 3).store, p, o);
    } else {
      StoppedRevert(s, p, 3);
      SameTarget(s, o);
    }
  }

  lemma StoreParts(s: Store)
    requires StoreOk(s)
    ensures LedgerOk(s.ledger) && KeysMatch(s.ledger, s.brain)
  {
    hide LedgerOk, KeysMatch;
  }

  lemma StoppedRevert(s: Store, p: RevertRequest, commits: nat)
    requires RevertStop(s.ledger, p).Some?
    ensures RevertOp(s, p, commits).store == s
  {
    hide RevertStop;
  }

  lemma SameTarget(s: Store, o: Op)
    ensures TargetFramed(s, s, o)
  {
  }

  lemma RetiredTarget(s: Store, s': Store, p: RevertRequest, o: Op)
    requires RevertStop(s.ledger, p).None? && o.target.Some?
    requires s'.brain == RevertBrain(s.brain, p, s.ledger.ops[p.opId]).brain
    requires s'.ledger == s.ledger || s'.ledger == CommitRevert(s.ledger, p.review, p.idem, p.opId)
    requires var t, b, b' := o.target.value, s.brain, s'.brain;
      t < |b.facts| ==>
        && t < |b'.facts| && b'.facts[t].supersededBy == b.facts[t].supersededBy && (b.facts[t].expired ==> b'.facts[t].expired)
    requires var t, rows := o.target.value, CommitRevert(s.ledger, p.review, p.idem, p.opId).rows;
      t in s.ledger.rows ==> t in rows && rows[t].supersededBy == s.ledger.rows[t].supersededBy
    ensures TargetFramed(s, s', o)
  {
    hide RevertStop, RevertBrain, CommitRevert;
  }

  lemma OpRefsDiffer(l: Ledger, p: RevertRequest)
    requires LedgerOk(l) && RevertStop(l, p).None?
    ensures l.ops[p.opId].ref.Some? ==> l.ops[p.opId].target != l.ops[p.opId].ref && l.ops[p.opId].action.CreatesFact()
  {
    assert l.ops[p.opId].action != Revert;
    assert EffectRecorded(l, l.ops[p.opId]);
  }

  /** A revert on the target that GBrain does not commit changes nothing at all. */
  lemma UnretiringIsIdle(s: Store, r: Request, o: Op, except: set<FactId>, open: set<Pair>)
    requires KeysSpent(s.ledger, s.brain, open) && OnTarget(s.ledger, r, o, except, open) && !Retires(s, r, o)
    ensures Serve(s, r, 3) == s
  {
    var l, p := s.ledger, r.revert;
    if RevertStop(l, p).None? {
      var o' := l.ops[p.opId];
      FailedRevertIsIdle(s.brain, p, o');
      if o'.action.CreatesFact() && RevertKey(p, o') in s.brain.operations {
        SpentRevertDoesNothing(s.brain, p, o');
        assert p.idem in l.opByKey;
      }
    }
    hide RevertStop, RevertBrain, CommitRevert;
  }

  lemma FailedRevertIsIdle(b: Brain, p: RevertRequest, o: Op)
    ensures RevertBrain(b, p, o).reply.Fail? ==> RevertBrain(b, p, o).brain == b
    ensures !o.action.CreatesFact() ==> RevertBrain(b, p, o).brain == b
  {
  }

  lemma RetiringExpires(s: Store, r: Request, o: Op)
    requires StoreOk(s) && Retires(s, r, o)
    ensures o.target.value < |Serve(s, r, 3).brain.facts| && Serve(s, r, 3).brain.facts[o.target.value].expired
  {
    hide RevertStop, RevertBrain, CommitRevert, RevertRefusal, LedgerOk, KeysMatch, RevertKey;
    OpRefsDiffer(s.ledger, r.revert);
    RevertExpires(s.brain, r.revert, s.ledger.ops[r.revert.opId], o.target.value);
  }

  lemma RevertExpires(b: Brain, p: RevertRequest, o: Op, t: FactId)
    requires o.action.CreatesFact() && o.ref == Some(t) && o.target != o.ref
    requires RevertKey(p, o) !in b.operations && RevertBrain(b, p, o).reply.Ok?
    ensures t < |RevertBrain(b, p, o).brain.facts| && RevertBrain(b, p, o).brain.facts[t].expired
  {
  }

  /** While the revert is half done, nothing commits on its candidate: only its key can be taken. */
  lemma OnlyTheKeyIsTaken(s: Store, r: Request, q: RevertRequest, o: Op, except: set<FactId>, open: set<Pair>)
    requires StoreOk(s) && HalfReverted(s, q) && o == s.ledger.ops[q.opId] && RefSet(o.ref) <= except
    requires Foreign(s, r, except, open) || OnTarget(s.ledger, r, o, except, open)
    requires Commits(s, r, q.review, q.idem)
    ensures q.idem in Serve(s, r, 3).ledger.opByKey
  {
    hide RevertStop, ResolveStop, Resolve, RevertOp, LedgerOk, KeysMatch, ResolveStrands, RevertStrands, RevertRecord, RevertKey;
    var l := s.ledger;
    LatestIsInForce(l, q);
    match r
    case Resolving(p) =>
      ResolveAdvances(s, p);
      OpenToResolve(s, p);
    case Reverting(p) =>
      RevertAdvances(s, p);
      LatestIsReverted(s, p);
      assert o.ref.value in RefSet(o.ref);
    case _ =>
  }

  lemma LatestIsInForce(l: Ledger, q: RevertRequest)
    requires LedgerOk(l) && RevertStop(l, q).None?
    ensures l.reviews[q.review].lastOp == Some(q.opId) && l.reviews[q.review].status != Open && l.ops[q.opId].review == q.review
  {
    LatestOfReview(l, q);
    hide RevertStop;
    LedgerParts(l);
    InForceIsClosed(l, q.review, q.opId);
  }

  lemma LatestOfReview(l: Ledger, q: RevertRequest)
    requires RevertStop(l, q).None?
    ensures q.review < |l.reviews| && l.reviews[q.review].lastOp == Some(q.opId)
    ensures q.opId < |l.ops| && l.ops[q.opId].review == q.review && l.ops[q.opId].action != Revert
  {
    hide AlreadyCompensated;
  }

  lemma InForceIsClosed(l: Ledger, review: nat, opId: nat)
    requires LogsAlternate(l) && review < |l.reviews| && l.reviews[review].lastOp == Some(opId)
    requires opId < |l.ops| && l.ops[opId].review == review && l.ops[opId].action != Revert
    ensures l.reviews[review].status != Open
  {
    assert ReviewMatchesLog(l, review) && OpInLog(l, opId);
  }

  lemma OpenToResolve(s: Store, p: ResolveRequest)
    requires Resolve(s, p, 3).answer.Done?
    ensures p.review < |s.ledger.reviews| && s.ledger.reviews[p.review].status == Open
  {
  }

  lemma LatestIsReverted(s: Store, p: RevertRequest)
    requires RevertOp(s, p, 3).answer.Done?
    ensures p.review < |s.ledger.reviews| && s.ledger.reviews[p.review].lastOp == Some(p.opId)
    ensures RevertStop(s.ledger, p).None? && p.opId < |s.ledger.ops|
  {
  }

  lemma HalfRevertedFramed(s: Store, s': Store, q: RevertRequest)
    requires StoreOk(s') && HalfReverted(s, q) && CandidateFramed(s.ledger, s'.ledger, q.review, q.idem)
    requires Framed(s, s', RefSet(s.ledger.ops[q.opId].ref)) && TargetFramed(s, s', s.ledger.ops[q.opId])
    ensures HalfReverted(s', q) && s'.ledger.ops[q.opId] == s.ledger.ops[q.opId]
  {
    hide RevertStop, StoreOk, RevertKey, RevertRecord, LogGrows;
    var o := s.ledger.ops[q.opId];
    OpsGrow(s, s', RefSet(o.ref), q.opId);
    SmallerFrame(s, s', RefSet(o.ref), {});
    FramedRevertStop(s, s', q);
    hide CandidateFramed;
    assert o.ref.value in RefSet(o.ref);
  }

  lemma OpsGrow(s: Store, s': Store, ids: set<FactId>, i: nat)
    requires Framed(s, s', ids) && i < |s.ledger.ops|
    ensures i < |s'.ledger.ops| && s'.ledger.ops[i] == s.ledger.ops[i]
  {
  }

  lemma FramedRevertStop(s: Store, s': Store, q: RevertRequest)
    requires StoreOk(s') && RevertStop(s.ledger, q).None? && q.idem !in s.ledger.opByKey
    requires CandidateFramed(s.ledger, s'.ledger, q.review, q.idem) && Framed(s, s', {})
    requires q.opId < |s'.ledger.ops| && s'.ledger.ops[q.opId] == s.ledger.ops[q.opId]
    ensures RevertStop(s'.ledger, q).None?
  {
    AlreadyRevertedNeverFires(s'.ledger, q.review, q.opId);
    hide LedgerOk, KeysMatch;
  }

  /** The key was taken while the revert was half done. */
  ghost predicate Missed(s: Store, q: RevertRequest, o: Op) {
    var l, b := s.ledger, s.brain;
    && q.idem in l.opByKey && q.opId < |l.ops| && l.ops[q.opId] == o
    && o.action.CreatesFact() && o.ref.Some? && o.target != o.ref
    && RevertKey(q, o) in b.operations && b.operations[RevertKey(q, o)] == RevertRecord(o)
    && o.ref.value in l.rows && o.ref.value < |b.facts| && b.facts[o.ref.value].expired
    && l.rows[o.ref.value].supersededBy == b.facts[o.ref.value].supersededBy
  }

  lemma TakingMisses(s: Store, s': Store, q: RevertRequest)
    requires HalfReverted(s, q) && Framed(s, s', RefSet(s.ledger.ops[q.opId].ref)) && q.idem in s'.ledger.opByKey
    ensures Missed(s', q, s.ledger.ops[q.opId])
  {
    hide RevertStop, RevertKey, RevertRecord;
    var o := s.ledger.ops[q.opId];
    assert o.ref.value in RefSet(o.ref);
  }

  lemma MissedFramed(s: Store, s': Store, q: RevertRequest, o: Op)
    requires Missed(s, q, o) && Framed(s, s', RefSet(o.ref))
    ensures Missed(s', q, o)
  {
    hide RevertKey, RevertRecord;
    assert o.ref.value in RefSet(o.ref);
  }

  lemma LinksFramed(s: Store, s': Store, o: Op)
    requires LinksApart(s, o) && TargetFramed(s, s', o)
    ensures LinksApart(s', o)
  {
  }

  /** The retry of a missed revert changes nothing. */
  lemma MissedRetry(s: Store, q: RevertRequest, o: Op)
    requires Missed(s, q, o)
    ensures RevertOp(s, q, 3).store == s && !RevertOp(s, q, 3).answer.Done?
  {
    RecordedRevert(s.brain, q, o);
    hide RevertBrain, RevertStop, CommitRevert, RevertKey, RevertRecord;
  }

  /** What a request of the run leaves for the revert: it stays half done or is missed, as its key is free or taken. */
  lemma RevertStep(s: Store, r: Request, q: RevertRequest, o: Op, except: set<FactId>, open: set<Pair>)
    requires StoreOk(s) && SoleCandidates(s.ledger) && LinksApart(s, o) && o.ref.Some? && o.target != o.ref
    requires HalfReverted(s, q) && o == s.ledger.ops[q.opId] && RefSet(o.ref) + RefSet(o.target) <= except
    requires Foreign(s, r, except, open) || OnTarget(s.ledger, r, o, except, open)
    ensures var s' := Serve(s, r, 3);
      && StoreOk(s') && SoleCandidates(s'.ledger) && LinksApart(s', o) && TargetFramed(s, s', o)
      && if Commits(s, r, q.review, q.idem) then Missed(s', q, o) else HalfReverted(s', q) && s'.ledger.ops[q.opId] == o
  {
    hide StoreOk, SoleCandidates, Serve, Framed, TargetFramed, LinksApart, Missed, Commits, CandidateFramed, RevertStop, RevertKey, RevertRecord;
    var s' := Serve(s, r, 3);
    ServeKeepsStore(s, r, 3);
    ServeKeepsSoleCandidates(s, r, 3);
    RunFrames(s, r, o, except, open);
    LinksFramed(s, s', o);
    if Commits(s, r, q.review, q.idem) {
      OnlyTheKeyIsTaken(s, r, q, o, except, open);
      TakingMisses(s, s', q);
    } else {
      UncommittedKeepsCandidate(s, r, q.review, q.idem);
      HalfRevertedFramed(s, s', q);
    }
  }

  lemma RunFrames(s: Store, r: Request, o: Op, except: set<FactId>, open: set<Pair>)
    requires StoreOk(s) && o.ref.Some? && o.target != o.ref && RefSet(o.ref) + RefSet(o.target) <= except
    requires Foreign(s, r, except, open) || OnTarget(s.ledger, r, o, except, open)
    ensures Framed(s, Serve(s, r, 3), RefSet(o.ref)) && TargetFramed(s, Serve(s, r, 3), o)
  {
    hide StoreOk, Serve, Framed, TargetFramed, OnTarget, Foreign;
    assert o.ref.value in RefSet(o.ref);
    if Foreign(s, r, except, open) {
      ForeignSpares(s, r, except, open, RefSet(o.ref) + RefSet(o.target));
      ServeFrames(s, r, RefSet(o.ref) + RefSet(o.target));
      FramedIsTargetFramed(s, Serve(s, r, 3), o);
    } else {
      OnTargetFrames(s, r, o, except, open);
    }
  }

  /** One step keeps the stores in step outside the exceptions, unless it retires the target. */
  lemma RevertStepConsistent(s: Store, r: Request, o: Op, except: set<FactId>, open: set<Pair>)
    requires Consistent(s, except, open) && (Foreign(s, r, except, open) || OnTarget(s.ledger, r, o, except, open))
    requires o.target.Some? ==> o.target.value in except
    ensures if Retires(s, r, o) then o.target.value < |Serve(s, r, 3).brain.facts| && Serve(s, r, 3).brain.facts[o.target.value].expired
            else Consistent(Serve(s, r, 3), except, open) && (TargetLive(s.brain, o) ==> TargetLive(Serve(s, r, 3).brain, o))
  {
    hide Consistent, Foreign, Retires, OnTarget, Serve, Framed;
    ConsistentStore(s, except, open);
    ConsistentKeys(s, except, open);
    if Retires(s, r, o) {
      RetiringExpires(s, r, o);
    } else if Foreign(s, r, except, open) {
      ForeignKeepsConsistent(s, r, except, open);
      if o.target.Some? {
        ForeignSpares(s, r, except, open, {o.target.value});
        ServeFrames(s, r, {o.target.value});
        FramedFact(s, Serve(s, r, 3), o.target.value);
      }
    } else {
      UnretiringIsIdle(s, r, o, except, open);
    }
  }

  lemma FramedFact(s: Store, s': Store, i: FactId)
    requires Framed(s, s', {i})
    ensures i < |s.brain.facts| ==> i < |s'.brain.facts| && s'.brain.facts[i] == s.brain.facts[i]
  {
    assert i in {i};
  }

  lemma FramedRow(s: Store, s': Store, ref: Option<FactId>)
    requires Framed(s, s', RefSet(ref)) && ref.Some?
    ensures ref.value in s.ledger.rows ==> ref.value in s'.ledger.rows && s'.ledger.rows[ref.value] == s.ledger.rows[ref.value]
  {
    assert ref.value in RefSet(ref);
  }

  lemma ConsistentKeys(s: Store, except: set<FactId>, open: set<Pair>)
    requires Consistent(s, except, open)
    ensures KeysSpent(s.ledger, s.brain, open)
  {
  }

  /** The revert at the end of the run: half done or missed, with its pointers still apart. */
  ghost predicate Left(s: Store, q: RevertRequest, o: Op, taken: bool) {
    && StoreOk(s) && SoleCandidates(s.ledger) && LinksApart(s, o)
    && if taken then Missed(s, q, o) else HalfReverted(s, q) && s.ledger.ops[q.opId] == o
  }

  ghost predicate Expired(s: Store, o: Op) {
    o.target.Some? && o.target.value < |s.brain.facts| && s.brain.facts[o.target.value].expired
  }

  lemma LeftStep(s: Store, r: Request, q: RevertRequest, o: Op, taken: bool, except: set<FactId>, open: set<Pair>)
    requires Left(s, q, o, taken) && o.ref.Some? && o.target != o.ref && RefSet(o.ref) + RefSet(o.target) <= except
    requires Foreign(s, r, except, open) || OnTarget(s.ledger, r, o, except, open)
    ensures Left(Serve(s, r, 3), q, o, taken || Commits(s, r, q.review, q.idem))
    ensures Expired(s, o) ==> Expired(Serve(s, r, 3), o)
    ensures o.ref.value in s.ledger.rows ==>
      o.ref.value in Serve(s, r, 3).ledger.rows && Serve(s, r, 3).ledger.rows[o.ref.value] == s.ledger.rows[o.ref.value]
  {
    hide StoreOk, SoleCandidates, Serve, Framed, LinksApart, Missed, Commits, Foreign, OnTarget, HalfReverted;
    var s' := Serve(s, r, 3);
    RunFrames(s, r, o, except, open);
    FramedRow(s, s', o.ref);
    if taken {
      ServeKeepsStore(s, r, 3);
      ServeKeepsSoleCandidates(s, r, 3);
      LinksFramed(s, s', o);
      MissedFramed(s, s', q, o);
    } else {
      HalfHasOp(s, q);
      RevertStep(s, r, q, o, except, open);
    }
  }

  lemma HalfHasOp(s: Store, q: RevertRequest)
    requires HalfReverted(s, q)
    ensures q.opId < |s.ledger.ops|
  {
    hide RevertKey, RevertRecord;
  }

  lemma {:induction false} LeftRun(s: Store, rs: seq<Request>, q: RevertRequest, o: Op, taken: bool, except: set<FactId>, open: set<Pair>)
    requires Left(s, q, o, taken) && o.ref.Some? && o.target != o.ref && RefSet(o.ref) + RefSet(o.target) <= except
    requires RevertRun(s, rs, o, except, open)
    ensures Left(After(s, rs), q, o, taken || EverCommits(s, rs, q.review, q.idem))
    ensures Expired(s, o) ==> Expired(After(s, rs), o)
    ensures o.ref.value in s.ledger.rows ==>
      o.ref.value in After(s, rs).ledger.rows && After(s, rs).ledger.rows[o.ref.value] == s.ledger.rows[o.ref.value]
    ensures Consistent(s, except, open) && TargetLive(s.brain, o) ==>
      if EverRetires(s, rs, o) then Expired(After(s, rs), o)
      else Consistent(After(s, rs), except, open) && TargetLive(After(s, rs).brain, o)
    decreases |rs|
  {
    hide Left, Expired, Serve, Commits, Consistent, Foreign, OnTarget, Retires, TargetLive;
    if rs != [] {
      var s' := Serve(s, rs[0], 3);
      LeftStep(s, rs[0], q, o, taken, except, open);
      if Consistent(s, except, open) {
        TargetExcepted(o, except);
        RevertStepConsistent(s, rs[0], o, except, open);
        RetiredIsExpired(s, rs[0], o);
      }
      LeftRun(s', rs[1..], q, o, taken || Commits(s, rs[0], q.review, q.idem), except, open);
    }
  }

  lemma TargetExcepted(o: Op, except: set<FactId>)
    requires RefSet(o.ref) + RefSet(o.target) <= except
    ensures o.target.Some? ==> o.target.value in except
  {
    assert o.target.Some? ==> o.target.value in RefSet(o.target);
  }

  lemma RetiredIsExpired(s: Store, r: Request, o: Op)
    ensures Retires(s, r, o) && o.target.value < |Serve(s, r, 3).brain.facts| && Serve(s, r, 3).brain.facts[o.target.value].expired ==>
      Expired(Serve(s, r, 3), o)
  {
    hide Serve, RevertStop, RevertBrain;
  }

  /** The crash leaves the revert half done with its pointers apart. */
  lemma CrashedRevertIsLeft(s: Store, q: RevertRequest, except: set<FactId>, open: set<Pair>)
    requires Consistent(s, except, open) && SoleCandidates(s.ledger) && RevertStop(s.ledger, q).None? && q.idem !in s.ledger.opByKey
    requires RevertTouches(s.ledger, q) !! except && (q.review, q.idem) !in open
    requires s.ledger.ops[q.opId].ref.Some? && RevertOp(s, q, 1).answer == Crashed
    ensures Left(RevertOp(s, q, 1).store, q, s.ledger.ops[q.opId], false)
    ensures RevertOp(s, q, 1).store.ledger == s.ledger && TargetLive(RevertOp(s, q, 1).store.brain, s.ledger.ops[q.opId])
    ensures s.ledger.ops[q.opId].target != s.ledger.ops[q.opId].ref && s.ledger.ops[q.opId].ref.value in s.ledger.rows
  {
    hide LedgerOk, KeysMatch, SoleCandidates, RevertStop, RevertBrain, HalfReverted, Agree, KeysSpent;
    CrashedRevert(s, q, except, open);
    CrashedRevertStore(s, q);
    RevertKeepsStore(s, q, 1);
    hide RevertOp;
    InForceEffect(s.ledger, q);
  }

  lemma InForceEffect(l: Ledger, q: RevertRequest)
    requires LedgerOk(l) && RevertStop(l, q).None? && l.ops[q.opId].ref.Some?
    ensures var o := l.ops[q.opId];
      && o.ref.value in l.rows && o.target != o.ref
      && (o.target.Some? ==> o.target.value in l.rows && l.rows[o.target.value].supersededBy == o.ref)
  {
    hide RevertStop, LedgerOk;
    LatestOfReview(l, q);
    LedgerParts(l);
    LatestEffect(l, q.review, q.opId);
  }

  lemma LatestEffect(l: Ledger, review: nat, opId: nat)
    requires LogsAlternate(l) && EffectsMatch(l) && review < |l.reviews| && l.reviews[review].lastOp == Some(opId)
    requires opId < |l.ops| && l.ops[opId].review == review && l.ops[opId].action != Revert && l.ops[opId].ref.Some?
    ensures var o := l.ops[opId];
      && o.ref.value in l.rows && o.target != o.ref
      && (o.target.Some? ==> o.target.value in l.rows && l.rows[o.target.value].supersededBy == o.ref)
  {
    assert ReviewMatchesLog(l, review) && OpInLog(l, opId) && EffectRecorded(l, l.ops[opId]);
  }

  /** What the crashed revert still owes the ledger. */
  predicate LeftToDo(l: Ledger, o: Op) {
    o.target.Some? || (o.ref.Some? && o.ref.value in l.rows && l.rows[o.ref.value].status != Archived)
  }

  /** A retried revert of a retired target makes its row active although its fact is archived. */
  lemma RetryResurrects(s: Store, q: RevertRequest, o: Op, except: set<FactId>)
    requires Left(s, q, o, false) && Expired(s, o) && o.ref.Some? && o.target.value !in except
    ensures var s' := RevertOp(s, q, 3).store; RevertOp(s, q, 3).answer.Done? && !Agree(s'.ledger, s'.brain, except)
  {
    hide LedgerOk, KeysMatch, LogsAlternate, OriginsMatch, EffectsMatch, EventsMatch, TombstonesMatch, CrystalsFresh,
      RevertStop, CommitRevert, RevertRefusal, SoleCandidates;
    var l, b := s.ledger, s.brain;
    LedgerParts(l);
    RecordedRevert(b, q, o);
    RevertIsReady(l, q);
    TombstoneNeverMissing(l, q.review, q.idem, q.opId);
    ReadyRevertRecorded(l, q);
    RetriedRows(l, q.review, q.idem, q.opId);
    DisagreeAt(CommitRevert(l, q.review, q.idem, q.opId), b, o.target.value, except);
    hide RevertBrain;
  }

  lemma MissedDisagrees(s: Store, q: RevertRequest, o: Op, except: set<FactId>)
    requires Missed(s, q, o) && LinksApart(s, o) && LeftToDo(s.ledger, o) && (RefSet(o.ref) + RefSet(o.target)) !! except
    ensures !Agree(s.ledger, s.brain, except)
  {
    hide RevertKey, RevertRecord;
    assert o.ref.value in RefSet(o.ref) && (o.target.Some? ==> o.target.value in RefSet(o.target));
  }

  lemma MissedAgrees(s: Store, q: RevertRequest, o: Op, except: set<FactId>, open: set<Pair>)
    requires Consistent(s, except + (RefSet(o.ref) + RefSet(o.target)), open + {(q.review, q.idem)})
    requires Missed(s, q, o) && !LeftToDo(s.ledger, o)
    ensures Consistent(s, except, open)
  {
    hide RevertKey, RevertRecord, LedgerOk, KeysMatch;
  }

  /** A revert crashed after its GBrain commit, then any requests that touch other facts or revert the operation that
      created its target, then its retry. The retry heals the stores exactly when no such revert was committed by
      GBrain in between, and nothing took the key of a revert with something left to do. */
  lemma RevertHealsExactly(s: Store, q: RevertRequest, rs: seq<Request>, except: set<FactId>, open: set<Pair>)
    requires Consistent(s, except, open) && SoleCandidates(s.ledger) && RevertStop(s.ledger, q).None? && q.idem !in s.ledger.opByKey
    requires RevertTouches(s.ledger, q) !! except && (q.review, q.idem) !in open
    requires s.ledger.ops[q.opId].ref.Some? && RevertOp(s, q, 1).answer == Crashed
    requires RevertRun(RevertOp(s, q, 1).store, rs, s.ledger.ops[q.opId], except + RevertTouches(s.ledger, q), open + {(q.review, q.idem)})
    ensures var crashed, o := RevertOp(s, q, 1).store, s.ledger.ops[q.opId];
      var retried := RevertOp(After(crashed, rs), q, 3);
      && (retried.answer.Done? <==> !EverCommits(crashed, rs, q.review, q.idem))
      && if EverRetires(crashed, rs, o) || (EverCommits(crashed, rs, q.review, q.idem) && LeftToDo(s.ledger, o))
         then !Agree(retried.store.ledger, retried.store.brain, except)
         else Consistent(retried.store, except, open)
  {
    hide Left, Expired, Consistent, RevertStop, RevertRun, After, EverCommits, EverRetires, SoleCandidates, TargetLive, LeftToDo;
    var o, crashed := s.ledger.ops[q.opId], RevertOp(s, q, 1).store;
    var touched, pair := RefSet(o.ref) + RefSet(o.target), (q.review, q.idem);
    RevertedConsistent(s, q, except, open);
    CrashedRevertIsLeft(s, q, except, open);
    hide RevertOp;
    LeftRun(crashed, rs, q, o, false, except + touched, open + {pair});
    SameLeftToDo(s.ledger, After(crashed, rs).ledger, o);
    RetryAtTheEnd(After(crashed, rs), q, o, EverCommits(crashed, rs, q.review, q.idem), EverRetires(crashed, rs, o), except, open);
  }

  lemma RevertedConsistent(s: Store, q: RevertRequest, except: set<FactId>, open: set<Pair>)
    requires Consistent(s, except, open) && RevertStop(s.ledger, q).None? && q.idem !in s.ledger.opByKey
    requires RevertTouches(s.ledger, q) !! except && (q.review, q.idem) !in open
    requires s.ledger.ops[q.opId].ref.Some? && RevertOp(s, q, 1).answer == Crashed
    ensures var o := s.ledger.ops[q.opId];
      && RevertTouches(s.ledger, q) == RefSet(o.ref) + RefSet(o.target)
      && Consistent(RevertOp(s, q, 1).store, except + (RefSet(o.ref) + RefSet(o.target)), open + {(q.review, q.idem)})
  {
    hide Consistent, RevertOp, RevertStop;
    CrashedRevert(s, q, except, open);
  }

  lemma SameLeftToDo(l: Ledger, l': Ledger, o: Op)
    requires o.ref.Some? && o.ref.value in l.rows && o.ref.value in l'.rows && l'.rows[o.ref.value] == l.rows[o.ref.value]
    ensures LeftToDo(l', o) <==> LeftToDo(l, o)
  {
  }

  lemma RetryAtTheEnd(later: Store, q: RevertRequest, o: Op, taken: bool, retired: bool, except: set<FactId>, open: set<Pair>)
    requires Left(later, q, o, taken) && o.ref.Some? && (RefSet(o.ref) + RefSet(o.target)) !! except && (q.review, q.idem) !in open
    requires var touched := RefSet(o.ref) + RefSet(o.target);
      if retired then Expired(later, o) else Consistent(later, except + touched, open + {(q.review, q.idem)}) && TargetLive(later.brain, o)
    ensures var retried := RevertOp(later, q, 3);
      && (retried.answer.Done? <==> !taken)
      && if retired || (taken && LeftToDo(later.ledger, o)) then !Agree(retried.store.ledger, retried.store.brain, except)
         else Consistent(retried.store, except, open)
  {
    hide Left, Expired, Consistent, RevertOp, TargetLive, LeftToDo, Missed, HalfReverted, LinksApart, Agree;
    var touched, pair := RefSet(o.ref) + RefSet(o.target), (q.review, q.idem);
    if retired { ExpiredHasTarget(later, o); TargetIsLeftToDo(later.ledger, o); }
    if taken {
      LeftMissed(later, q, o);
      MissedRetry(later, q, o);
      if LeftToDo(later.ledger, o) {
        MissedDisagrees(later, q, o, except);
      } else {
        MissedAgrees(later, q, o, except, open);
      }
    } else if retired {
      assert o.target.value in RefSet(o.target);
      RetryResurrects(later, q, o, except);
    } else {
      LeftHalf(later, q, o);
      HalfRevertedRetry(later, q, o, except + touched, open + {pair});
      assert except + touched - touched == except && open + {pair} - {pair} == open;
    }
  }

  lemma TargetIsLeftToDo(l: Ledger, o: Op)
    requires o.target.Some?
    ensures LeftToDo(l, o)
  {
  }

  lemma LeftMissed(s: Store, q: RevertRequest, o: Op)
    requires Left(s, q, o, true)
    ensures Missed(s, q, o) && LinksApart(s, o)
  {
    hide Missed, LinksApart;
  }

  lemma LeftHalf(s: Store, q: RevertRequest, o: Op)
    requires Left(s, q, o, false)
    ensures HalfReverted(s, q) && q.opId < |s.ledger.ops| && s.ledger.ops[q.opId] == o
  {
    hide LinksApart, RevertKey, RevertRecord;
  }

  lemma ExpiredHasTarget(s: Store, o: Op)
    requires Expired(s, o)
    ensures o.target.Some?
  {
  }

  lemma HalfRevertedRetry(s: Store, q: RevertRequest, o: Op, except: set<FactId>, open: set<Pair>)
    requires Consistent(s, except, open) && HalfReverted(s, q) && TargetLive(s.brain, o) && s.ledger.ops[q.opId] == o
    ensures RevertOp(s, q, 3).answer.Done?
    ensures Consistent(RevertOp(s, q, 3).store, except - (RefSet(o.ref) + RefSet(o.target)), open - {(q.review, q.idem)})
  {
    hide Consistent, RevertStop, RevertBrain, RevertRefusal, CommitRevert;
    RetriedRevertHeals(s, q, except, open);
    assert RevertOp(s, q, 3) == RevertOp(s, q, 2);
    assert RevertTouches(s.ledger, q) == RefSet(o.ref) + RefSet(o.target);
  }
}
