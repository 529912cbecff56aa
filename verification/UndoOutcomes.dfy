/** What a revert, a forget and a crystal rebuild answer and leave in both stores, on the fields of operations, rows,
    tombstones, crystals and facts. */
module UndoOutcomes {
  import opened Names
  import opened GBrain
  import opened Ledger
  import opened Lifecycle
  import opened LedgerInvariants
  import opened AllRuns
  import opened StoreAgreement
  import opened RunTheorems
  import opened ResolveOutcomes

  // ---- reverts

  /** The candidate is the requester's own at the revision the requester has seen, and its latest operation is the one to
      undo and not itself a revert. */
  predicate LatestFor(l: Ledger, q: RevertRequest) {
    && q.review < |l.reviews| && l.reviews[q.review].origin in l.events
    && l.reviews[q.review].revision == q.expected && l.reviews[q.review].lastOp == Some(q.opId)
    && q.opId < |l.ops| && l.ops[q.opId].action != Revert
    && var e := l.events[l.reviews[q.review].origin];
    e.tenant == q.who.tenant && e.user == q.who.user && e.workspace == q.who.workspace
  }

  /** What a superseding operation put aside can still be put back: its row is superseded, not archived since. */
  predicate CanPutBack(l: Ledger, o: Op) {
    o.action == Supersession ==> o.target.Some? && o.target.value in l.rows && l.rows[o.target.value].status == Superseded
  }

  lemma RevertGoesOnExactly(l: Ledger, q: RevertRequest)
    requires LogsAlternate(l) && EffectsMatch(l)
    ensures RevertStop(l, q).None? <==>
      && (forall i | 0 <= i < |l.ops| :: l.ops[i].idem == q.idem ==> !OwnOp(l.ops[i], q.who))
      && LatestFor(l, q)
  {
    hide LogsAlternate, EffectsMatch, ExistingOp;
    KeyLookup(l, q.idem, q.who);
    if q.review < |l.reviews| && l.reviews[q.review].lastOp == Some(q.opId) {
      LatestIsSound(l, q.review, q.opId);
      if l.ops[q.opId].action != Revert { AlreadyRevertedNeverFires(l, q.review, q.opId); }
    }
    hide AlreadyCompensated;
  }

  lemma LatestIsSound(l: Ledger, review: nat, opId: nat)
    requires LogsAlternate(l) && EffectsMatch(l) && review < |l.reviews| && l.reviews[review].lastOp == Some(opId)
    ensures opId < |l.ops| && l.ops[opId].review == review
    ensures l.ops[opId].action != Revert ==> EffectRecorded(l, l.ops[opId])
  {
    assert ReviewMatchesLog(l, review);
  }

  /** Between agreeing stores a complete revert is carried out exactly under these conditions. */
  lemma RevertDoneExactly(s: Store, q: RevertRequest)
    requires Consistent(s, {}, {})
    ensures RevertOp(s, q, 2).answer.Done? <==>
      && LatestFor(s.ledger, q) && CanPutBack(s.ledger, s.ledger.ops[q.opId])
      && forall i | 0 <= i < |s.ledger.ops| :: s.ledger.ops[i].idem != q.idem
  {
    hide LedgerOk, KeysMatch, Agree, KeysSpent, RevertOp, RevertBrain, RevertRefusal, RevertStop, LatestFor;
    hide LogsAlternate, OriginsMatch, EffectsMatch, EventsMatch, TombstonesMatch, CrystalsFresh, RevisionsBounded;
    var l := s.ledger;
    LedgerParts(l);
    RevertGoesOnExactly(l, q);
    KeyLookup(l, q.idem, q.who);
    RevertAnswer(s, q);
    if RevertStop(l, q).None? {
      if q.idem in l.opByKey {
        TakenIsRefused(l, q);
      } else {
        RevertIsReady(l, q);
        RevertInGBrain(s, q);
      }
    }
  }

  lemma TakenIsRefused(l: Ledger, q: RevertRequest)
    requires RevertStop(l, q).None? && q.idem in l.opByKey
    ensures RevertRefusal(l, q).Some?
  {
    hide RevertStop;
  }

  lemma RevertAnswer(s: Store, q: RevertRequest)
    ensures RevertOp(s, q, 2).answer.Done? <==>
      RevertStop(s.ledger, q).None? && RevertBrain(s.brain, q, s.ledger.ops[q.opId]).reply.Ok? && RevertRefusal(s.ledger, q).None?
    ensures RevertOp(s, q, 2).answer.Done? ==>
      RevertOp(s, q, 2) == Outcome(Store(CommitRevert(s.ledger, q.review, q.idem, q.opId), RevertBrain(s.brain, q, s.ledger.ops[q.opId]).brain), Done(|s.ledger.ops|))
  {
    hide RevertStop, RevertBrain, RevertRefusal, CommitRevert;
  }

  /** The GBrain half of a revert under an unused key goes through exactly when the target can be put back. */
  lemma RevertInGBrain(s: Store, q: RevertRequest)
    requires Consistent(s, {}, {}) && RevertStop(s.ledger, q).None? && q.idem !in s.ledger.opByKey
    ensures var o, step := s.ledger.ops[q.opId], RevertBrain(s.brain, q, s.ledger.ops[q.opId]);
      && (step.reply.Ok? <==> CanPutBack(s.ledger, o)) && (step.reply.Ok? ==> Reverted(s.brain, step.brain, o))
  {
    hide LedgerOk, KeysMatch, Agree, RevertStop, RevertBrain, Reverted;
    hide LogsAlternate, OriginsMatch, EffectsMatch, EventsMatch, TombstonesMatch, CrystalsFresh, RevisionsBounded;
    LedgerParts(s.ledger);
    RevertedFacts(s.ledger, s.brain, q, {});
    RevertGoesThrough(s.brain, q, s.ledger.ops[q.opId]);
  }

  /** The rows after a revert: the created memory is archived, the superseded one is active again without a successor,
      and every other row is as before. */
  predicate RowsUndone(l: Ledger, l': Ledger, o: Op) {
    var rev := l.revision + 1;
    && l'.rows.Keys == l.rows.Keys && l'.revision == rev
    && forall r <- l.rows ::
         l'.rows[r] == if o.ref == Some(r) then l.rows[r].(status := Archived, updated := rev)
                       else if o.action == Supersession && o.target == Some(r) then l.rows[r].(status := Active, supersededBy := None, updated := rev)
                       else l.rows[r]
  }

  /** The crystals of the two memories' scopes are not ready any more, and the others are as before. */
  predicate CrystalsUndone(l: Ledger, l': Ledger, o: Op) {
    OnlyStale(l.crystals, l'.crystals, set r | r in l.rows && (o.ref == Some(r) || (o.action == Supersession && o.target == Some(r))) :: l.rows[r].binding)
  }

  /** The archived memory has a tombstone in force, and the one of the restored memory is revoked. */
  predicate TombstonesUndone(l: Ledger, l': Ledger, o: Op) {
    var rev := l.revision + 1;
    && (o.ref.Some? ==> o.ref.value in l'.tombstones && l'.tombstones[o.ref.value].deleted == rev && l'.tombstones[o.ref.value].revoked.None?)
    && (o.action == Supersession && o.target.Some? && o.target != o.ref ==>
         o.target.value in l'.tombstones && l'.tombstones[o.target.value].revoked == Some(rev))
    && forall r <- l.tombstones | Some(r) != o.ref && Some(r) != o.target :: r in l'.tombstones && l'.tombstones[r] == l.tombstones[r]
  }

  /** One operation more, which says what it compensates, and the candidate is open again. */
  predicate LogsRevert(l: Ledger, l': Ledger, q: RevertRequest)
    requires LatestFor(l, q)
  {
    var o := l.ops[q.opId];
    && l'.ops == l.ops + [Op(q.review, q.idem, q.who.tenant, q.who.user, q.who.workspace, Revert, q.expected, o.ref, o.target, Some(q.opId))]
    && l'.reviews == l.reviews[q.review := Review(l.reviews[q.review].origin, Open, q.expected + 1, Some(|l.ops|))]
    && l'.events == l.events && l'.receipts == l.receipts && l'.externals == l.externals
  }

  /** What the invariants say of the memories of an operation to undo. */
  ghost predicate UndoFits(l: Ledger, q: RevertRequest) {
    && LatestFor(l, q)
    && var o := l.ops[q.opId];
    && (o.ref.Some? ==> OwnedRow(l.rows, o.ref.value, q.who.tenant, q.who.user))
    && (o.action == Supersession <==> o.target.Some?)
    && (o.target.Some? ==>
         && o.ref.Some? && o.target != o.ref && OwnedRow(l.rows, o.target.value, q.who.tenant, q.who.user)
         && Revocable(l.tombstones, o.target.value, q.who.tenant, q.who.user))
  }

  lemma CommitUndoes(l: Ledger, q: RevertRequest)
    requires LedgerOk(l) && LatestFor(l, q) && RevertReady(l, q.review, q.idem, q.opId)
    ensures var l', o := CommitRevert(l, q.review, q.idem, q.opId), l.ops[q.opId];
      RowsUndone(l, l', o) && TombstonesUndone(l, l', o) && LogsRevert(l, l', q) && CrystalsUndone(l, l', o)
  {
    UndoIsFitting(l, q);
    hide LedgerOk, CommitRevert, RowsUndone, TombstonesUndone, CrystalsUndone, LogsRevert, UndoFits, RevertReady;
    RowsAreUndone(l, q);
    TombstonesAreUndone(l, q);
    CrystalsAreUndone(l, q);
  }

  lemma UndoIsFitting(l: Ledger, q: RevertRequest)
    requires LedgerOk(l) && LatestFor(l, q) && RevertReady(l, q.review, q.idem, q.opId)
    ensures UndoFits(l, q)
  {
    hide LogsAlternate, OriginsMatch, EffectsMatch, EventsMatch, TombstonesMatch, CrystalsFresh, RevisionsBounded;
    LedgerParts(l);
    TombstoneNeverMissing(l, q.review, q.idem, q.opId);
    LatestIsSound(l, q.review, q.opId);
  }

  lemma RowsAreUndone(l: Ledger, q: RevertRequest)
    requires UndoFits(l, q)
    ensures var l', o := CommitRevert(l, q.review, q.idem, q.opId), l.ops[q.opId]; RowsUndone(l, l', o) && LogsRevert(l, l', q)
  {
    hide RevertedTombstones, RevertedCrystals;
  }

  lemma TombstonesAreUndone(l: Ledger, q: RevertRequest)
    requires UndoFits(l, q)
    ensures TombstonesUndone(l, CommitRevert(l, q.review, q.idem, q.opId), l.ops[q.opId])
  {
    hide RevertedRows, RevertedCrystals;
  }

  lemma CrystalsAreUndone(l: Ledger, q: RevertRequest)
    requires UndoFits(l, q)
    ensures CrystalsUndone(l, CommitRevert(l, q.review, q.idem, q.opId), l.ops[q.opId])
  {
    hide RevertedRows, RevertedTombstones;
  }

  /** A revert that is carried out between agreeing stores undoes the operation in both. */
  lemma RevertUndoes(s: Store, q: RevertRequest)
    requires Consistent(s, {}, {}) && RevertOp(s, q, 2).answer.Done?
    ensures LatestFor(s.ledger, q)
    ensures var l, s', o := s.ledger, RevertOp(s, q, 2).store, s.ledger.ops[q.opId];
      && RevertOp(s, q, 2).answer == Done(|l.ops|)
      && LogsRevert(l, s'.ledger, q) && RowsUndone(l, s'.ledger, o) && TombstonesUndone(l, s'.ledger, o) && CrystalsUndone(l, s'.ledger, o)
      && Reverted(s.brain, s'.brain, o)
  {
    hide LedgerOk, KeysMatch, Agree, KeysSpent, RevertOp, RevertBrain, RevertRefusal, RevertStop, LatestFor, RowsUndone, TombstonesUndone, CrystalsUndone, LogsRevert,
      CommitRevert, RevertReady;
    hide LogsAlternate, OriginsMatch, EffectsMatch, EventsMatch, TombstonesMatch, CrystalsFresh, RevisionsBounded;
    LedgerParts(s.ledger);
    RevertGoesOnExactly(s.ledger, q);
    RevertAnswer(s, q);
    RefusedTaken(s.ledger, q);
    RevertIsReady(s.ledger, q);
    RevertInGBrain(s, q);
    CommitUndoes(s.ledger, q);
  }

  // ---- forgetting

  /** The memory is the requester's own, in the workspace the request names. */
  predicate OwnMemory(l: Ledger, who: Principal, ref: FactId) {
    && ref in l.rows && l.rows[ref].binding.tenant == who.tenant && l.rows[ref].binding.user == who.user
    && l.rows[ref].binding.workspace == who.workspace
  }

  /** One row, and its fact, are archived, with a tombstone in force; nothing else changes but the scope's crystal. */
  predicate Archives(s: Store, s': Store, ref: FactId)
    requires ref in s.ledger.rows && ref < |s.brain.facts|
  {
    var l, l', rev := s.ledger, s'.ledger, s.ledger.revision + 1;
    && l'.rows == l.rows[ref := l.rows[ref].(status := Archived, updated := rev)]
    && s'.brain.facts == s.brain.facts[ref := s.brain.facts[ref].(expired := true)]
    && ref in l'.tombstones && l'.tombstones == l.tombstones[ref := l'.tombstones[ref]]
    && l'.tombstones[ref].deleted == rev && l'.tombstones[ref].revoked.None?
    && l'.events == l.events && l'.receipts == l.receipts && l'.reviews == l.reviews && l'.ops == l.ops && l'.externals == l.externals
    && OnlyStale(l.crystals, l'.crystals, {l.rows[ref].binding})
  }

  /** Between agreeing stores, forgetting archives the owner's active memory in both, answers the status of one that is
      not active, and finds no memory of anybody else. */
  lemma ForgettingArchives(s: Store, who: Principal, ref: FactId)
    requires Consistent(s, {}, {})
    ensures var out := Forget(s, who, ref, 2);
      if !OwnMemory(s.ledger, who, ref) then out == Outcome(s, Refused(MemoryNotFound))
      else if s.ledger.rows[ref].status != Active then out == Outcome(s, Settled(s.ledger.rows[ref].status))
      else ref < |s.brain.facts| && out.answer == Settled(Archived) && Archives(s, out.store, ref)
  {
    hide LedgerOk, KeysMatch, Agree, KeysSpent;
    if OwnMemory(s.ledger, who, ref) && s.ledger.rows[ref].status == Active {
      var key := ForgetKey(ref, who.workspace);
      ForgetKeyIsFresh(s.ledger, s.brain, ref, key, {}, {});
      ArchivedBrain(s.brain, key, ref);
      hide SetExpired;
      ForgottenTables(s.ledger, ref, who.tenant, who.user);
    }
  }

  lemma ForgottenTables(l: Ledger, ref: FactId, tenant: string, user: string)
    requires ref in l.rows
    ensures var l', rev := CommitForget(l, ref, tenant, user), l.revision + 1;
      && ref in l'.tombstones && l'.tombstones == l.tombstones[ref := l'.tombstones[ref]]
      && l'.tombstones[ref].deleted == rev && l'.tombstones[ref].revoked.None?
      && OnlyStale(l.crystals, l'.crystals, {l.rows[ref].binding})
  {
  }

  // ---- crystals

  /** A row counts among the sources of a scope's crystal. */
  predicate IsSource(row: Row, binding: ScopeBinding) {
    row.binding == binding && row.status == Active && !row.instruction
  }

  /** Over every run, a ready crystal lists exactly the active memories of its scope that are no instructions, and none
      of them changed after the crystal was built. */
  lemma ReadyCrystalIsCurrent(attempts: seq<Attempt>, binding: ScopeBinding, r: FactId)
    requires var l := Run(EMPTY, attempts).ledger; binding in l.crystals && l.crystals[binding].ready
    ensures var l := Run(EMPTY, attempts).ledger;
      && (r in l.crystals[binding].refs <==> r in l.rows && IsSource(l.rows[r], binding))
      && (r in l.crystals[binding].refs ==> l.rows[r].updated <= l.crystals[binding].generated)
  {
    hide Run, KeysMatch, LogsAlternate, OriginsMatch, EffectsMatch, EventsMatch, TombstonesMatch, RevisionsBounded;
    EveryRunKeepsTheLedger(attempts);
    LedgerParts(Run(EMPTY, attempts).ledger);
  }

  lemma SourcesAre(rows: map<FactId, Row>, binding: ScopeBinding)
    ensures forall r :: r in Sources(rows, binding) <==> r in rows && IsSource(rows[r], binding)
  {
  }

  /** A crystal key was only ever used to rebuild the crystal of its own scope. */
  ghost predicate CrystalKeysRebuild(b: Brain) {
    forall k <- b.operations | k.CrystalKey? :: b.operations[k].kind == RebuildOp && b.operations[k].target == OnScope(k.binding)
  }

  lemma ConfirmCrystalKeys(l: Ledger, b: Brain, q: ResolveRequest, n: nat)
    requires CrystalKeysRebuild(b) && q.review < |l.reviews| && l.reviews[q.review].origin in l.events && n > 0
    ensures CrystalKeysRebuild(ConfirmBrain(l, b, q, n).brain)
  {
  }

  lemma RevertCrystalKeys(b: Brain, q: RevertRequest, o: Op)
    requires CrystalKeysRebuild(b)
    ensures CrystalKeysRebuild(RevertBrain(b, q, o).brain)
  {
  }

  lemma ServeCrystalKeys(s: Store, r: Request, n: nat)
    requires CrystalKeysRebuild(s.brain)
    ensures CrystalKeysRebuild(Serve(s, r, n).brain)
  {
    hide ResolveStop, RevertStop, ConfirmBrain, RevertBrain, ConfirmRefusal, RevertRefusal, CommitConfirm, CommitClose, CommitRevert, CommitForget,
      CommitRebuild, CommitSubmit, CommitApplied, CommitReview, CommitDuplicate, CommitRetry, CommitDeadLetter, Sources;
    match r
    case Resolving(q) => if ResolveStop(s.ledger, q).None? && n > 0 { ConfirmCrystalKeys(s.ledger, s.brain, q, n); }
    case Reverting(q) => if RevertStop(s.ledger, q).None? { RevertCrystalKeys(s.brain, q, s.ledger.ops[q.opId]); }
    case _ =>
  }

  lemma {:induction false} RunCrystalKeys(s: Store, attempts: seq<Attempt>)
    requires CrystalKeysRebuild(s.brain)
    ensures CrystalKeysRebuild(Run(s, attempts).brain)
    decreases |attempts|
  {
    hide Serve, CrystalKeysRebuild;
    if attempts != [] {
      ServeCrystalKeys(s, attempts[0].request, attempts[0].commits);
      RunCrystalKeys(Serve(s, attempts[0].request, attempts[0].commits), attempts[1..]);
    }
  }

  /** Between agreeing stores, a rebuild is answered and its crystal becomes ready exactly when the scope has two to a
      hundred sources; the crystal then lists those, a first use of the key makes the page of those, and GBrain's facts
      stay as they are. */
  lemma RebuildListsSources(s: Store, who: Principal, scope: Scope, ns: string, idem: string)
    requires Consistent(s, {}, {}) && Reached(s)
    ensures var binding, out := ScopeBinding(who.tenant, who.user, who.workspace, scope, ns), RebuildCrystal(s, who, scope, ns, idem, 2);
      var n := |set r | r in s.ledger.rows && IsSource(s.ledger.rows[r], binding)|;
      && (out.answer == Settled(Active) <==> 2 <= n <= 100) && out.store.brain.facts == s.brain.facts
      && (out.answer == Settled(Active) ==>
           && binding in out.store.ledger.crystals && out.store.ledger.crystals[binding].ready
           && out.store.ledger == s.ledger.(crystals := s.ledger.crystals[binding := out.store.ledger.crystals[binding]], revision := s.ledger.revision + 1)
           && (forall r :: r in out.store.ledger.crystals[binding].refs <==> r in s.ledger.rows && IsSource(s.ledger.rows[r], binding))
           && (CrystalKey(binding, idem) !in s.brain.operations ==>
                PageRef(who.tenant, binding, out.store.ledger.crystals[binding].refs) in out.store.brain.pages))
      && (out.answer != Settled(Active) ==> out.store == s)
  {
    hide LedgerOk, KeysMatch, Agree, KeysSpent, Sources, Rebuild, Run;
    var attempts :| Run(EMPTY, attempts) == s;
    RunCrystalKeys(EMPTY, attempts);
    var binding := ScopeBinding(who.tenant, who.user, who.workspace, scope, ns);
    var refs := Sources(s.ledger.rows, binding);
    SourcesAre(s.ledger.rows, binding);
    assert refs == set r | r in s.ledger.rows && IsSource(s.ledger.rows[r], binding);
    RebuildInGBrain(s, CrystalKey(binding, idem), who.tenant, binding);
  }

  /** GBrain rebuilds the page of a scope for any number of sources it allows: they are its own live facts. */
  lemma RebuildInGBrain(s: Store, key: Key, tenant: string, binding: ScopeBinding)
    requires Consistent(s, {}, {}) && CrystalKeysRebuild(s.brain)
    requires key.CrystalKey? && key.binding == binding && binding.tenant == tenant
    ensures var refs := Sources(s.ledger.rows, binding); var step := Rebuild(s.brain, key, tenant, refs, binding);
      && (step.reply.Ok? <==> 2 <= |refs| <= 100) && step.brain.facts == s.brain.facts && (step.reply.Fail? ==> step.brain == s.brain)
      && (step.reply.Ok? && key !in s.brain.operations ==> PageRef(tenant, binding, refs) in step.brain.pages)
  {
    hide LedgerOk, Agree, KeysSpent, Sources, StatusOf, KeysMatch;
    SourcesAreLive(s, binding);
    CrystalKeysFree(s, key);
  }

  lemma CrystalKeysFree(s: Store, key: Key)
    requires KeysMatch(s.ledger, s.brain) && key.CrystalKey?
    ensures key !in s.brain.bindings
  {
    hide KeyPlaced;
  }

  lemma SourcesAreLive(s: Store, binding: ScopeBinding)
    requires Consistent(s, {}, {})
    ensures forall r <- Sources(s.ledger.rows, binding) ::
      r < |s.brain.facts| && s.brain.facts[r].Live() && s.brain.facts[r].source == binding.tenant
  {
    hide LedgerOk, BindingsMatch, KeyPlaced, KeysSpent;
  }

  // ---- why a revert is refused

  /** A refused revert leaves the ledger as it was and names the first thing that is wrong, in the same order. */
  lemma RevertRefusalsNameTheirReason(s: Store, q: RevertRequest)
    requires StoreOk(s) && forall i | 0 <= i < |s.ledger.ops| :: s.ledger.ops[i].idem == q.idem ==> !OwnOp(s.ledger.ops[i], q.who)
    ensures var l, answer := s.ledger, RevertOp(s, q, 2).answer;
      && (q.review >= |l.reviews| ==> answer == Refused(ReviewNotFound))
      && (ForeignCandidate(l, q.review, q.who) ==> answer == Refused(Forbidden))
      && (OwnCandidate(l, q.review, q.who) && l.reviews[q.review].revision != q.expected ==> answer == Refused(RevisionConflict))
      && (OwnCandidate(l, q.review, q.who) && l.reviews[q.review].revision == q.expected ==>
           && (l.reviews[q.review].lastOp != Some(q.opId) ==> answer == Refused(NotLatest))
           && (l.reviews[q.review].lastOp == Some(q.opId) && q.opId < |l.ops| && l.ops[q.opId].action == Revert ==> answer == Refused(NotReversible)))
    ensures !RevertOp(s, q, 2).answer.Done? ==> RevertOp(s, q, 2).store.ledger == s.ledger
  {
    hide LogsAlternate, OriginsMatch, EffectsMatch, EventsMatch, TombstonesMatch, CrystalsFresh, RevisionsBounded, KeysMatch;
    hide RevertBrain, RevertRefusal, CommitRevert, AlreadyCompensated;
    LedgerParts(s.ledger);
    KeyLookup(s.ledger, q.idem, q.who);
    hide ExistingOp;
  }
}
