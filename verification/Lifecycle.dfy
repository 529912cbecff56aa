/** Requests over both stores. A request commits to GBrain first and to the ledger last; `commits` is the
    number of database commits it gets through before it crashes, so a crash between any two commits, and the
    complete request, are the same function at different values of `commits`. */
module Lifecycle {
  import opened Names
  import opened GBrain
  import opened Ledger

  datatype Store = Store(ledger: Ledger, brain: Brain)

  const EMPTY := Store(EMPTY_LEDGER, EMPTY_BRAIN)

  datatype Problem =
    | ReviewNotFound | Forbidden | RevisionConflict | NotPending | SensitiveContent | ApprovalRequired
    | TargetRequired | TargetInvalid | TargetPinned | NotLatest | NotReversible | AlreadyReverted
    | TombstoneMissing | ActionInvalid | MemoryNotFound | SourceCount | KeyTaken | OriginTaken | EventIdReuse | ReceiptMissing
    | Backend(error: BrainError)

  datatype Answer =
    | Done(op: nat)
    | Duplicate(op: nat)
    | Conflicting(refs: set<FactId>)
    | Settled(status: RowStatus)
    | Refused(problem: Problem)
    | Crashed

  datatype Outcome = Outcome(store: Store, answer: Answer)

  datatype ResolveRequest = ResolveRequest(who: Principal, review: nat, action: Action, expected: nat, idem: string,
                                           edited: Payload, approved: bool, target: Option<FactId>)

  datatype RevertRequest = RevertRequest(who: Principal, review: nat, opId: nat, expected: nat, idem: string)

  // ---- guards read from the ledger

  /** The committed operation under the key, seen only through the requester's own tenant, user and workspace. */
  function ExistingOp(l: Ledger, idem: string, who: Principal): Option<nat> {
    if idem in l.opByKey && l.opByKey[idem] < |l.ops| then
      var o := l.ops[l.opByKey[idem]];
      if o.tenant == who.tenant && o.user == who.user && o.workspace == who.workspace then Some(l.opByKey[idem]) else None
    else None
  }

  /** The checks resolve and revert share, in source order. */
  function CandidateProblem(l: Ledger, review: nat, who: Principal, expected: nat): Option<Problem> {
    if review >= |l.reviews| || l.reviews[review].origin !in l.events then Some(ReviewNotFound)
    else
      var e := l.events[l.reviews[review].origin];
      if e.tenant != who.tenant || e.user != who.user || e.workspace != who.workspace then Some(Forbidden)
      else if l.reviews[review].revision != expected then Some(RevisionConflict)
      else None
  }

  function ResolvedPayload(l: Ledger, q: ResolveRequest): Payload
    requires q.review < |l.reviews| && l.reviews[q.review].origin in l.events
  {
    if q.action == ConfirmEdit then q.edited else l.events[l.reviews[q.review].origin].payload
  }

  function ConflictsFor(l: Ledger, q: ResolveRequest): set<FactId>
    requires q.review < |l.reviews| && l.reviews[q.review].origin in l.events
  {
    var origin := l.reviews[q.review].origin;
    var payload := ResolvedPayload(l, q);
    FindConflicts(l.rows, BindingOf(origin, l.events[origin], payload), payload.keys)
  }

  /** Everything resolve answers before it touches either store; None when it goes on to commit. */
  function ResolveStop(l: Ledger, q: ResolveRequest): (a: Option<Answer>)
    ensures a.None? ==> q.review < |l.reviews| && l.reviews[q.review].origin in l.events && q.action != Revert
    ensures a.Some? ==> !a.value.Done? && !a.value.Crashed?
    ensures a.None? && q.action == Supersession ==> q.target.Some? && q.target.value in l.rows
  {
    if q.action == Revert then Some(Refused(ActionInvalid))
    else if ExistingOp(l, q.idem, q.who).Some? then Some(Duplicate(ExistingOp(l, q.idem, q.who).value))
    else
      match CandidateProblem(l, q.review, q.who, q.expected)
      case Some(problem) => Some(Refused(problem))
      case None =>
        if l.reviews[q.review].status != Open then Some(Refused(NotPending))
        else
          var payload, conflicts := ResolvedPayload(l, q), ConflictsFor(l, q);
          if payload.sensitive then Some(Refused(SensitiveContent))
          else if payload.instruction && !q.approved then Some(Refused(ApprovalRequired))
          else if (q.action == Confirm || q.action == ConfirmEdit) && conflicts != {} then Some(Conflicting(conflicts))
          else if q.action == Supersession && q.target.None? then Some(Refused(TargetRequired))
          else if q.action == Supersession && q.target.value !in conflicts then Some(Refused(TargetInvalid))
          else if q.action == Supersession && l.rows[q.target.value].pinned then Some(Refused(TargetPinned))
          else None
  }

  /** Everything revert answers before it touches either store. */
  function RevertStop(l: Ledger, q: RevertRequest): (a: Option<Answer>)
    ensures a.None? ==> q.review < |l.reviews| && l.reviews[q.review].origin in l.events && q.opId < |l.ops|
    ensures a.Some? ==> !a.value.Done? && !a.value.Crashed?
  {
    if ExistingOp(l, q.idem, q.who).Some? then Some(Duplicate(ExistingOp(l, q.idem, q.who).value))
    else
      match CandidateProblem(l, q.review, q.who, q.expected)
      case Some(problem) => Some(Refused(problem))
      case None =>
        if l.reviews[q.review].lastOp != Some(q.opId) then Some(Refused(NotLatest))
        else if q.opId >= |l.ops| || l.ops[q.opId].review != q.review || l.ops[q.opId].action == Revert then
          Some(Refused(NotReversible))
        else if AlreadyCompensated(l, q.opId) then Some(Refused(AlreadyReverted))
        else if l.ops[q.opId].action.CreatesFact() && l.ops[q.opId].ref.None? then Some(Refused(NotReversible))
        else if l.ops[q.opId].action == Supersession && l.ops[q.opId].target.None? then Some(Refused(NotReversible))
        else None
  }

  predicate AlreadyCompensated(l: Ledger, opId: nat) {
    exists i | 0 <= i < |l.ops| :: l.ops[i].compensates == Some(opId) && l.ops[i].action == Revert
  }

  // ---- why the database rolls the ledger half back

  /** idempotency_key is UNIQUE over all owners, and a lifecycle row is UNIQUE per source event. */
  function ConfirmRefusal(l: Ledger, q: ResolveRequest, ref: FactId): Option<Problem>
    requires q.review < |l.reviews| && l.reviews[q.review].origin in l.events
  {
    var e := l.events[l.reviews[q.review].origin];
    if q.idem in l.opByKey then Some(KeyTaken)
    else if ref !in l.rows && l.reviews[q.review].origin in l.rowByOrigin then Some(OriginTaken)
    else if q.action == Supersession && q.target.Some? &&
            (!OwnedRow(l.rows, q.target.value, e.tenant, e.user)
             || l.rows[q.target.value].status != Active || l.rows[q.target.value].pinned) then Some(TargetInvalid)
    else None
  }

  function RevertRefusal(l: Ledger, q: RevertRequest): Option<Problem>
    requires q.review < |l.reviews| && l.reviews[q.review].origin in l.events && q.opId < |l.ops|
  {
    var e, undone := l.events[l.reviews[q.review].origin], l.ops[q.opId];
    var put := match undone.ref case None => l.tombstones
      case Some(r) => PutTombstone(l.tombstones, r, e.tenant, e.user, l.revision + 1);
    if q.idem in l.opByKey then Some(KeyTaken)
    else if undone.action == Supersession && undone.target.Some? && !Revocable(put, undone.target.value, e.tenant, e.user)
    then Some(TombstoneMissing)
    else None
  }

  // ---- requests

  /** The GBrain half of a confirmation, `commits` transactions of it. */
  function ConfirmBrain(l: Ledger, b: Brain, q: ResolveRequest, commits: nat): (step: Step)
    requires q.review < |l.reviews| && l.reviews[q.review].origin in l.events
    requires commits > 0
    ensures step.reply.Ok? ==> step.reply.ref.FactRef?
  {
    var created := Upsert(b, CreateKey(q.review, q.idem), q.who.tenant, ResolvedPayload(l, q).content);
    if created.reply.Fail? || q.action != Supersession || q.target.None? || commits == 1 then created
    else
      var linked := Supersede(created.brain, SupersedeKey(q.review, q.idem), q.target.value, created.reply.ref.id);
      Step(linked.brain, if linked.reply.Fail? then linked.reply else created.reply)
  }

  function ConfirmCommits(q: ResolveRequest): nat {
    if q.action == Supersession then 3 else 2
  }

  function Resolve(s: Store, q: ResolveRequest, commits: nat): Outcome {
    match ResolveStop(s.ledger, q)
    case Some(answer) => Outcome(s, answer)
    case None =>
      if q.action.CreatesFact() then
        if commits == 0 then Outcome(s, Crashed)
        else
          var step := ConfirmBrain(s.ledger, s.brain, q, commits);
          if step.reply.Fail? then Outcome(s.(brain := step.brain), Refused(Backend(step.reply.error)))
          else if commits < ConfirmCommits(q) then Outcome(s.(brain := step.brain), Crashed)
          else
            match ConfirmRefusal(s.ledger, q, step.reply.ref.id)
            case Some(problem) => Outcome(s.(brain := step.brain), Refused(problem))
            case None =>
              Outcome(Store(CommitConfirm(s.ledger, q.review, q.idem, q.action, ResolvedPayload(s.ledger, q), step.reply.ref.id,
                                          if q.action == Supersession then q.target else None), step.brain),
                      Done(|s.ledger.ops|))
      else if commits == 0 then Outcome(s, Crashed)
      else if q.idem in s.ledger.opByKey then Outcome(s, Refused(KeyTaken))
      else Outcome(s.(ledger := CommitClose(s.ledger, q.review, q.idem, q.action)), Done(|s.ledger.ops|))
  }

  /** Reverting an archive or a reject has nothing to undo in GBrain. */
  function RevertBrain(b: Brain, q: RevertRequest, undone: Op): Step {
    if !undone.action.CreatesFact() || undone.ref.None? then Step(b, Ok(FactRef(0)))
    else if undone.action == Supersession && undone.target.Some? then
      Restore(b, RestoreKey(q.review, q.idem), undone.target.value, undone.ref.value)
    else SetExpired(b, ArchiveKey(q.review, q.idem), undone.ref.value, ArchiveOp)
  }

  function RevertCommits(undone: Op): nat {
    if undone.action.CreatesFact() then 2 else 1
  }

  function RevertOp(s: Store, q: RevertRequest, commits: nat): Outcome {
    match RevertStop(s.ledger, q)
    case Some(answer) => Outcome(s, answer)
    case None =>
      if commits == 0 then Outcome(s, Crashed)
      else
        var undone := s.ledger.ops[q.opId];
        var step := RevertBrain(s.brain, q, undone);
        if step.reply.Fail? then Outcome(s.(brain := step.brain), Refused(Backend(step.reply.error)))
        else if commits < RevertCommits(undone) then Outcome(s.(brain := step.brain), Crashed)
        else
          match RevertRefusal(s.ledger, q)
          case Some(problem) => Outcome(s.(brain := step.brain), Refused(problem))
          case None => Outcome(Store(CommitRevert(s.ledger, q.review, q.idem, q.opId), step.brain), Done(|s.ledger.ops|))
  }

  function Forget(s: Store, who: Principal, ref: FactId, commits: nat): Outcome {
    if !OwnedRow(s.ledger.rows, ref, who.tenant, who.user) || s.ledger.rows[ref].binding.workspace != who.workspace then
      Outcome(s, Refused(MemoryNotFound))
    else if s.ledger.rows[ref].status != Active then Outcome(s, Settled(s.ledger.rows[ref].status))
    else if commits == 0 then Outcome(s, Crashed)
    else
      var step := SetExpired(s.brain, ForgetKey(ref, who.workspace), ref, ArchiveOp);
      if step.reply.Fail? then Outcome(s.(brain := step.brain), Refused(Backend(step.reply.error)))
      else if commits == 1 then Outcome(s.(brain := step.brain), Crashed)
      else Outcome(Store(CommitForget(s.ledger, ref, who.tenant, who.user), step.brain), Settled(Archived))
  }

  function RebuildCrystal(s: Store, who: Principal, scope: Scope, ns: string, idem: string, commits: nat): Outcome {
    var binding := ScopeBinding(who.tenant, who.user, who.workspace, scope, ns);
    var refs := Sources(s.ledger.rows, binding);
    if |refs| < 2 then Outcome(s, Refused(SourceCount))
    else if commits == 0 then Outcome(s, Crashed)
    else
      var step := Rebuild(s.brain, CrystalKey(binding, idem), who.tenant, refs, binding);
      if step.reply.Fail? then Outcome(s.(brain := step.brain), Refused(Backend(step.reply.error)))
      else if commits == 1 then Outcome(s.(brain := step.brain), Crashed)
      else Outcome(Store(CommitRebuild(s.ledger, binding, refs), step.brain), Settled(Active))
  }

  // ---- the event ledger and its worker

  datatype Receiving = Accepted | Fixed(receipt: Receipt) | InProgress(status: EventStatus) | Rejecting(problem: Problem)

  datatype SubmitOutcome = SubmitOutcome(store: Store, reply: Receiving)

  /** record_proposed_event: insert, or read back what the first submission led to. */
  function Submit(s: Store, who: Principal, id: string, scope: Scope, payload: Payload): SubmitOutcome {
    var key := EventKey(who.device, id);
    if payload.sensitive then SubmitOutcome(s, Rejecting(SensitiveContent))
    else if key !in s.ledger.events then
      var e := Event(who.tenant, who.user, who.agent, who.workspace, scope, payload, Pending, None, None, None, 0);
      SubmitOutcome(s.(ledger := CommitSubmit(s.ledger, key, e)), Accepted)
    else
      var e := s.ledger.events[key];
      if e.payload != payload || e.workspace != who.workspace || e.scope != scope then SubmitOutcome(s, Rejecting(EventIdReuse))
      else if e.status == Applied || e.status == Rejected then
        if key in s.ledger.receipts then SubmitOutcome(s, Fixed(s.ledger.receipts[key]))
        else SubmitOutcome(s, Rejecting(ReceiptMissing))
      else SubmitOutcome(s, InProgress(e.status))
  }

  /** What the worker cannot foresee about one event: decryption, and GBrain's own verdict on the text. */
  datatype Luck = Decrypts | Unreadable | TextRejected | BackendDown

  predicate Due(l: Ledger, key: EventKey) {
    key in l.events && (l.events[key].status == Pending || l.events[key].status == Retryable)
  }

  /** One pass of the worker over a due event. */
  function WorkerPass(s: Store, key: EventKey, luck: Luck, commits: nat): Outcome
    requires Due(s.ledger, key)
  {
    var l, e := s.ledger, s.ledger.events[key];
    if commits == 0 then Outcome(s, Crashed)
    else if luck == Unreadable then Outcome(s.(ledger := CommitDeadLetter(l, key)), Done(0))
    else if e.payload.provenance.Some? && ExternalKeyOf(e, e.payload.provenance.value) in l.externals then
      Outcome(s.(ledger := CommitDuplicate(l, key, l.externals[ExternalKeyOf(e, e.payload.provenance.value)].backendRef)), Done(0))
    else if e.payload.instruction || !e.payload.userExplicit then
      Outcome(s.(ledger := CommitReview(l, key)), Done(0))
    else if luck == TextRejected then Outcome(s.(ledger := CommitDeadLetter(l, key)), Done(0))
    else if luck == BackendDown then Outcome(s.(ledger := CommitRetry(l, key)), Done(0))
    else
      var step := Upsert(s.brain, WorkerKey(key), e.tenant, e.payload.content);
      if step.reply.Fail? then Outcome(s.(ledger := CommitRetry(l, key)), Done(0))
      else if commits == 1 then Outcome(s.(brain := step.brain), Crashed)
      else if step.reply.ref.id !in l.rows && key in l.rowByOrigin then
        Outcome(s.(brain := step.brain), Refused(OriginTaken))
      else Outcome(Store(CommitApplied(l, key, step.reply.ref.id), step.brain), Done(0))
  }

  // ---- runs

  datatype Request =
    | Submitting(who: Principal, id: string, scope: Scope, payload: Payload)
    | Working(key: EventKey, luck: Luck)
    | Resolving(resolve: ResolveRequest)
    | Reverting(revert: RevertRequest)
    | Forgetting(who: Principal, ref: FactId)
    | Rebuilding(who: Principal, scope: Scope, ns: string, idem: string)

  function Serve(s: Store, r: Request, commits: nat): Store {
    match r
    case Submitting(who, id, scope, payload) => if commits == 0 then s else Submit(s, who, id, scope, payload).store
    case Working(key, luck) => if Due(s.ledger, key) then WorkerPass(s, key, luck, commits).store else s
    case Resolving(q) => Resolve(s, q, commits).store
    case Reverting(q) => RevertOp(s, q, commits).store
    case Forgetting(who, ref) => Forget(s, who, ref, commits).store
    case Rebuilding(who, scope, ns, idem) => RebuildCrystal(s, who, scope, ns, idem, commits).store
  }

  /** A request and the number of commits it gets through; three always complete it. */
  datatype Attempt = Attempt(request: Request, commits: nat)

  function Run(s: Store, attempts: seq<Attempt>): Store
    decreases |attempts|
  {
    if attempts == [] then s else Run(Serve(s, attempts[0].request, attempts[0].commits), attempts[1..])
  }
}
