/** When the two stores tell the same story about every fact. The exception sets make room for requests that
    crashed half-way: `except` holds the references they touched, `open` their (review, key) pairs. With both
    sets empty the statements are about runs in which every request completes. */
module StoreAgreement {
  import opened Names
  import opened GBrain
  import opened Ledger
  import opened Lifecycle
  import opened LedgerInvariants
  import opened AllRuns

  /** The lifecycle status a GBrain fact amounts to. */
  function StatusOf(fact: Fact): RowStatus {
    if fact.expired then Archived else if fact.supersededBy.Some? then Superseded else Active
  }

  ghost predicate Agree(l: Ledger, b: Brain, except: set<FactId>) {
    forall r <- l.rows | r !in except ::
      r < |b.facts| && l.rows[r].status == StatusOf(b.facts[r]) && l.rows[r].supersededBy == b.facts[r].supersededBy
  }

  type Pair = (nat, string)

  /** GBrain keys of reviews belong to committed operations; a forget key belongs to an expired fact. */
  ghost predicate KeysSpent(l: Ledger, b: Brain, open: set<Pair>) {
    forall k <- b.operations ::
      match k
      case SupersedeKey(v, i) => i in l.opByKey || (v, i) in open
      case RestoreKey(v, i) => i in l.opByKey || (v, i) in open
      case ArchiveKey(v, i) => i in l.opByKey || (v, i) in open
      case ForgetKey(r, _) => r < |b.facts| && b.facts[r].expired
      case _ => true
  }

  ghost predicate Consistent(s: Store, except: set<FactId>, open: set<Pair>) {
    StoreOk(s) && Agree(s.ledger, s.brain, except) && KeysSpent(s.ledger, s.brain, open)
  }

  // ---- confirmations

  /** The request commits to GBrain but the ledger half is rolled back, leaving the target superseded in one
      store only: the key belongs to an operation of another owner, or the candidate was confirmed before. */
  predicate ResolveStrands(s: Store, q: ResolveRequest) {
    && ResolveStop(s.ledger, q).None? && q.action == Supersession
    && (q.idem in s.ledger.opByKey || s.ledger.reviews[q.review].origin in s.ledger.rowByOrigin)
    && SupersedeKey(q.review, q.idem) !in s.brain.operations
  }

  lemma SupersedeSucceeds(b: Brain, key: Key, oldId: FactId, newId: FactId)
    requires key !in b.operations && key !in b.bindings && oldId != newId && oldId < |b.facts| && newId < |b.facts|
    requires b.facts[oldId].Live() && b.facts[newId].Live() && b.facts[oldId].source == b.facts[newId].source
    ensures Supersede(b, key, oldId, newId)
         == Step(b.(facts := b.facts[oldId := b.facts[oldId].(supersededBy := Some(newId))],
                    operations := b.operations[key := Operation(SupersedeOp, OnFact(oldId), FactRef(newId))]), Ok(FactRef(newId)))
  {
  }

  /** The fact a confirmation creates, or finds under its key, is live, of the right tenant and without a row. */
  lemma CreatedIsFresh(l: Ledger, b: Brain, q: ResolveRequest)
    requires KeysMatch(l, b) && ResolveStop(l, q).None? && q.action.CreatesFact()
    requires CreateKey(q.review, q.idem) in b.bindings ==> b.bindings[CreateKey(q.review, q.idem)] !in l.rows
    ensures var step := Upsert(b, CreateKey(q.review, q.idem), q.who.tenant, ResolvedPayload(l, q).content);
      && KeysMatch(l, step.brain) && step.reply.Ok? && step.reply.ref.id !in l.rows && step.reply.ref.id < |step.brain.facts|
      && step.brain.facts[step.reply.ref.id].Live() && step.brain.facts[step.reply.ref.id].source == q.who.tenant
      && step.brain.operations == b.operations && SupersedeKey(q.review, q.idem) !in step.brain.bindings
      && |b.facts| <= |step.brain.facts| && (forall f | 0 <= f < |b.facts| :: step.brain.facts[f] == b.facts[f])
      && CreateKey(q.review, q.idem) in step.brain.bindings
      && step.brain.bindings[CreateKey(q.review, q.idem)] == step.reply.ref.id
  {
    var key := CreateKey(q.review, q.idem);
    UpsertKeepsKeys(l, b, key, q.who.tenant, ResolvedPayload(l, q).content);
    var created := Upsert(b, key, q.who.tenant, ResolvedPayload(l, q).content);
    assert KeyPlaced(l, created.brain, key);
    assert forall f | 0 <= f < |b.facts| :: created.brain.facts[f] == created.brain.facts[..|b.facts|][f];
  }

  lemma TargetOfResolve(l: Ledger, q: ResolveRequest)
    requires ResolveStop(l, q).None? && q.action == Supersession
    ensures var origin := l.reviews[q.review].origin; var t := q.target.value;
      && t in l.rows && l.rows[t].status == Active && !l.rows[t].pinned && l.rows[t].binding.tenant == q.who.tenant
      && l.rows[t].binding == BindingOf(origin, l.events[origin], ResolvedPayload(l, q))
  {
  }

  lemma TargetIsLive(l: Ledger, b: Brain, q: ResolveRequest, except: set<FactId>)
    requires KeysMatch(l, b) && Agree(l, b, except)
    requires ResolveStop(l, q).None? && q.action == Supersession && q.target.value !in except
    ensures var t := q.target.value; t < |b.facts| && b.facts[t].Live() && b.facts[t].source == q.who.tenant
  {
    TargetOfResolve(l, q);
    hide ResolveStop;
  }

  /** With the target live in both stores, the GBrain half of a supersession under a fresh key goes through. */
  lemma SupersessionGoesThrough(l: Ledger, b: Brain, q: ResolveRequest, commits: nat, except: set<FactId>)
    requires KeysMatch(l, b) && Agree(l, b, except) && commits >= 2
    requires ResolveStop(l, q).None? && q.action == Supersession && q.target.value !in except
    requires SupersedeKey(q.review, q.idem) !in b.operations
    requires CreateKey(q.review, q.idem) in b.bindings ==> b.bindings[CreateKey(q.review, q.idem)] !in l.rows
    ensures var step := ConfirmBrain(l, b, q, commits); var t := q.target.value;
      && step.reply.Ok? && step.reply.ref.id !in l.rows && step.reply.ref.id != t
      && step.reply.ref.id < |step.brain.facts| && |b.facts| <= |step.brain.facts| && t < |b.facts|
      && step.brain.facts[step.reply.ref.id].Live()
      && step.brain.facts[t] == b.facts[t].(supersededBy := Some(step.reply.ref.id))
      && (forall f | 0 <= f < |b.facts| && f != t :: step.brain.facts[f] == b.facts[f])
      && step.brain.operations == b.operations[SupersedeKey(q.review, q.idem) := Operation(SupersedeOp, OnFact(t), step.reply.ref)]
  {
    TargetOfResolve(l, q);
    TargetIsLive(l, b, q, except);
    CreatedIsFresh(l, b, q);
    var created := Upsert(b, CreateKey(q.review, q.idem), q.who.tenant, ResolvedPayload(l, q).content);
    hide ResolveStop, Upsert, KeysMatch, Agree, Supersede;
    SupersedeSucceeds(created.brain, SupersedeKey(q.review, q.idem), q.target.value, created.reply.ref.id);
  }

  /** Only a committed operation of the same candidate can have used the create key for a fact with a row. */
  lemma CreateKeyIsFresh(l: Ledger, b: Brain, q: ResolveRequest)
    requires KeysMatch(l, b) && LogsAlternate(l) && ResolveStop(l, q).None?
    ensures CreateKey(q.review, q.idem) in b.bindings ==> b.bindings[CreateKey(q.review, q.idem)] !in l.rows
  {
    var key := CreateKey(q.review, q.idem);
    if key in b.bindings && b.bindings[key] in l.rows {
      assert KeyPlaced(l, b, key);
      LoggedOp(l, l.opByKey[q.idem]);
    }
  }

  /** Extending a store by facts without rows, or by committed keys, changes nothing the stores agree on. */
  lemma AgreeExtends(l: Ledger, b: Brain, b': Brain, except: set<FactId>, open: set<Pair>)
    requires Agree(l, b, except) && KeysSpent(l, b, open)
    requires |b.facts| <= |b'.facts| && forall f | 0 <= f < |b.facts| :: b'.facts[f] == b.facts[f]
    requires forall k <- b'.operations :: k in b.operations && b'.operations[k] == b.operations[k]
    ensures Agree(l, b', except) && KeysSpent(l, b', open)
  {
  }

  /** The ledger half of a confirmation puts it in step with the GBrain half. */
  lemma ConfirmedAgrees(l: Ledger, b: Brain, b': Brain, review: nat, idem: string, action: Action, payload: Payload,
                        ref: FactId, target: Option<FactId>, except: set<FactId>, open: set<Pair>)
    requires Agree(l, b, except) && KeysSpent(l, b, open) && ConfirmReady(l, review, idem, action, payload, ref, target)
    requires |b.facts| <= |b'.facts| && ref < |b'.facts| && b'.facts[ref].Live() && ref !in l.rows
    requires forall r <- l.rows | Some(r) != target :: r < |b.facts| && b'.facts[r] == b.facts[r]
    requires forall f | 0 <= f < |b.facts| :: b.facts[f].expired ==> b'.facts[f].expired
    requires forall k <- b'.operations :: k in b.operations || k == SupersedeKey(review, idem)
    requires target.Some? ==> target.value < |b'.facts| && !b'.facts[target.value].expired
                              && b'.facts[target.value].supersededBy == Some(ref)
    ensures var l' := CommitConfirm(l, review, idem, action, payload, ref, target);
      Agree(l', b', except) && KeysSpent(l', b', open)
  {
  }

  /** A completed resolve keeps the stores in step, unless it is one of the requests that strand them. */
  lemma ResolveAgrees(s: Store, q: ResolveRequest, commits: nat, except: set<FactId>, open: set<Pair>)
    requires Consistent(s, except, open) && commits >= 3
    requires q.action == Supersession && q.target.Some? ==> q.target.value !in except
    requires (q.review, q.idem) !in open
    ensures !ResolveStrands(s, q) ==> Consistent(Resolve(s, q, commits).store, except, open)
    ensures ResolveStrands(s, q) ==> var s' := Resolve(s, q, commits).store; !Agree(s'.ledger, s'.brain, except)
  {
    hide LedgerOk, KeysMatch, Agree, KeysSpent;
    ResolveKeepsStore(s, q, commits);
    if ResolveStop(s.ledger, q).None? {
      if q.action == Supersession {
        SupersessionAgrees(s, q, commits, except, open);
      } else if q.action.CreatesFact() {
        PlainConfirmAgrees(s, q, commits, except, open);
      } else if q.idem !in s.ledger.opByKey {
        CloseAgrees(s, q, except, open);
      }
    }
  }

  lemma CloseAgrees(s: Store, q: ResolveRequest, except: set<FactId>, open: set<Pair>)
    requires Agree(s.ledger, s.brain, except) && KeysSpent(s.ledger, s.brain, open) && ResolveStop(s.ledger, q).None?
    ensures var l' := CommitClose(s.ledger, q.review, q.idem, q.action);
      Agree(l', s.brain, except) && KeysSpent(l', s.brain, open)
  {
  }

  lemma PlainConfirmAgrees(s: Store, q: ResolveRequest, commits: nat, except: set<FactId>, open: set<Pair>)
    requires Consistent(s, except, open) && commits >= 3
    requires ResolveStop(s.ledger, q).None? && q.action.CreatesFact() && q.action != Supersession
    ensures var s' := Resolve(s, q, commits).store;
      Agree(s'.ledger, s'.brain, except) && KeysSpent(s'.ledger, s'.brain, open)
  {
    hide LedgerOk, KeysMatch, Agree, KeysSpent, Upsert, ResolveStop, Resolve, ConfirmRefusal, CommitConfirm, LogsAlternate, OriginsMatch, EffectsMatch,
      EventsMatch, TombstonesMatch, CrystalsFresh;
    var l, b := s.ledger, s.brain;
    var step := Upsert(b, CreateKey(q.review, q.idem), q.who.tenant, ResolvedPayload(l, q).content);
    LedgerParts(l);
    CreateKeyIsFresh(l, b, q);
    CreatedIsFresh(l, b, q);
    ResolveConfirms(s, q, commits);
    AgreeExtends(l, b, step.brain, except, open);
    if ConfirmRefusal(l, q, step.reply.ref.id).None? {
      ConfirmIsReady(l, step.brain, q, step.reply.ref.id);
      RowsInRange(l, b);
      ConfirmedAgrees(l, b, step.brain, q.review, q.idem, q.action, ResolvedPayload(l, q), step.reply.ref.id, None, except, open);
    }
  }

  lemma LedgerParts(l: Ledger)
    requires LedgerOk(l)
    ensures RevisionsBounded(l) && TombstonesMatch(l.rows, l.tombstones) && CrystalsFresh(l.rows, l.crystals)
    ensures EventsMatch(l) && OriginsMatch(l) && LogsAlternate(l) && EffectsMatch(l)
  {
    hide RevisionsBounded, TombstonesMatch, CrystalsFresh, EventsMatch, OriginsMatch, LogsAlternate, EffectsMatch;
  }

  lemma RowsInRange(l: Ledger, b: Brain)
    requires KeysMatch(l, b)
    ensures forall r <- l.rows :: r < |b.facts|
  {
  }

  lemma SpentKeyDoesNothing(l: Ledger, b: Brain, q: ResolveRequest, commits: nat)
    requires ResolveStop(l, q).None? && commits > 0 && SupersedeKey(q.review, q.idem) in b.operations
    ensures ConfirmBrain(l, b, q, commits).brain
         == Upsert(b, CreateKey(q.review, q.idem), q.who.tenant, ResolvedPayload(l, q).content).brain
  {
  }

  /** What resolve does once its checks pass and its GBrain half succeeds. */
  lemma ResolveConfirms(s: Store, q: ResolveRequest, commits: nat)
    requires ResolveStop(s.ledger, q).None? && q.action.CreatesFact() && commits >= 3
    ensures var l, step := s.ledger, ConfirmBrain(s.ledger, s.brain, q, commits);
      var s' := Resolve(s, q, commits).store;
      && s'.brain == step.brain
      && (step.reply.Fail? || ConfirmRefusal(l, q, step.reply.ref.id).Some? ==> s'.ledger == l)
      && (step.reply.Ok? && ConfirmRefusal(l, q, step.reply.ref.id).None? ==>
            s'.ledger == CommitConfirm(l, q.review, q.idem, q.action, ResolvedPayload(l, q), step.reply.ref.id,
                                       if q.action == Supersession then q.target else None))
  {
    hide ResolveStop, ConfirmBrain, CommitConfirm, ConfirmRefusal;
  }

  /** A supersession whose GBrain key was already spent: its ledger key is taken too, so nothing happens. */
  lemma SpentSupersessionAgrees(s: Store, q: ResolveRequest, commits: nat, except: set<FactId>, open: set<Pair>)
    requires Consistent(s, except, open) && commits >= 3
    requires ResolveStop(s.ledger, q).None? && q.action == Supersession
    requires (q.review, q.idem) !in open && SupersedeKey(q.review, q.idem) in s.brain.operations
    ensures var s' := Resolve(s, q, commits).store;
      Agree(s'.ledger, s'.brain, except) && KeysSpent(s'.ledger, s'.brain, open)
  {
    var l, b := s.ledger, s.brain;
    hide LedgerOk;
    LedgerParts(l);
    CreateKeyIsFresh(l, b, q);
    CreatedIsFresh(l, b, q);
    SpentKeyDoesNothing(l, b, q, commits);
    ResolveConfirms(s, q, commits);
    assert q.idem in l.opByKey;
    hide KeysMatch, Agree, KeysSpent, Upsert, ConfirmBrain, ResolveStop, Resolve, CommitConfirm;
    AgreeExtends(l, b, Upsert(b, CreateKey(q.review, q.idem), q.who.tenant, ResolvedPayload(l, q).content).brain, except, open);
  }

  /** The ledger half of a supersession that went through GBrain is refused exactly when the request strands. */
  lemma RefusedExactlyWhenStranding(s: Store, q: ResolveRequest, ref: FactId)
    requires ResolveStop(s.ledger, q).None? && q.action == Supersession
    requires SupersedeKey(q.review, q.idem) !in s.brain.operations && ref !in s.ledger.rows
    ensures ConfirmRefusal(s.ledger, q, ref).Some? <==> ResolveStrands(s, q)
  {
    TargetOfResolve(s.ledger, q);
  }

  lemma FreshSupersessionAgrees(s: Store, q: ResolveRequest, commits: nat, except: set<FactId>, open: set<Pair>)
    requires Consistent(s, except, open) && commits >= 3
    requires ResolveStop(s.ledger, q).None? && q.action == Supersession && q.target.value !in except
    requires SupersedeKey(q.review, q.idem) !in s.brain.operations
    ensures var s' := Resolve(s, q, commits).store;
      if ResolveStrands(s, q) then !Agree(s'.ledger, s'.brain, except)
      else Agree(s'.ledger, s'.brain, except) && KeysSpent(s'.ledger, s'.brain, open)
  {
    hide LedgerOk, KeysMatch, Agree, KeysSpent, ResolveStop, ConfirmBrain, Resolve, CommitConfirm, ConfirmRefusal,
      ResolveStrands, LogsAlternate, OriginsMatch, EffectsMatch, EventsMatch, TombstonesMatch, CrystalsFresh;
    var l, b := s.ledger, s.brain;
    LedgerParts(l);
    CreateKeyIsFresh(l, b, q);
    SupersessionGoesThrough(l, b, q, commits, except);
    var step := ConfirmBrain(l, b, q, commits);
    RefusedExactlyWhenStranding(s, q, step.reply.ref.id);
    ResolveConfirms(s, q, commits);
    TargetOfResolve(l, q);
    if ResolveStrands(s, q) {
      DisagreeAt(l, step.brain, q.target.value, except);
    } else {
      ConfirmBrainKeepsKeys(l, b, q, commits);
      ConfirmIsReady(l, step.brain, q, step.reply.ref.id);
      RowsInRange(l, b);
      TargetIsLive(l, b, q, except);
      ConfirmedAgrees(l, b, step.brain, q.review, q.idem, q.action, ResolvedPayload(l, q), step.reply.ref.id, q.target, except, open);
    }
  }

  lemma DisagreeAt(l: Ledger, b: Brain, r: FactId, except: set<FactId>)
    requires r in l.rows && r !in except && r < |b.facts| && l.rows[r].status != StatusOf(b.facts[r])
    ensures !Agree(l, b, except)
  {
  }

  lemma SupersessionAgrees(s: Store, q: ResolveRequest, commits: nat, except: set<FactId>, open: set<Pair>)
    requires Consistent(s, except, open) && commits >= 3
    requires ResolveStop(s.ledger, q).None? && q.action == Supersession && q.target.value !in except
    requires (q.review, q.idem) !in open
    ensures var s' := Resolve(s, q, commits).store;
      if ResolveStrands(s, q) then !Agree(s'.ledger, s'.brain, except)
      else Agree(s'.ledger, s'.brain, except) && KeysSpent(s'.ledger, s'.brain, open)
  {
    if SupersedeKey(q.review, q.idem) in s.brain.operations {
      SpentSupersessionAgrees(s, q, commits, except, open);
    } else {
      FreshSupersessionAgrees(s, q, commits, except, open);
    }
  }

  // ---- reverts

  function RefSet(ref: Option<FactId>): set<FactId> {
    match ref case None => {} case Some(r) => {r}
  }

  /** The references a revert touches. */
  function RevertTouches(l: Ledger, q: RevertRequest): set<FactId> {
    if q.opId >= |l.ops| then {} else RefSet(l.ops[q.opId].ref) + RefSet(l.ops[q.opId].target)
  }

  /** The revert commits to GBrain under a key that another owner's operation has taken in the ledger. */
  predicate RevertStrands(s: Store, q: RevertRequest) {
    && RevertStop(s.ledger, q).None? && q.idem in s.ledger.opByKey
    && var o := s.ledger.ops[q.opId];
    && o.action.CreatesFact() && o.ref.Some? && o.ref.value in s.ledger.rows
    && if o.action == Supersession && o.target.Some? && o.target.value in s.ledger.rows
       then RestoreKey(q.review, q.idem) !in s.brain.operations && s.ledger.rows[o.target.value].status == Superseded
       else ArchiveKey(q.review, q.idem) !in s.brain.operations && s.ledger.rows[o.ref.value].status != Archived
  }

  /** The state of a reverted operation's facts, read from the ledger where the stores agree. */
  lemma RevertedFacts(l: Ledger, b: Brain, q: RevertRequest, except: set<FactId>)
    requires KeysMatch(l, b) && LogsAlternate(l) && EffectsMatch(l) && Agree(l, b, except)
    requires RevertStop(l, q).None? && RevertTouches(l, q) !! except
    ensures var o := l.ops[q.opId];
      && (o.action.CreatesFact() <==> o.ref.Some?) && (o.action == Supersession <==> o.target.Some?)
      && (o.ref.Some? ==>
           && o.ref.value in l.rows && o.ref.value < |b.facts|
           && (l.rows[o.ref.value].status == Archived <==> b.facts[o.ref.value].expired)
           && l.rows[o.ref.value].supersededBy == b.facts[o.ref.value].supersededBy)
      && (o.target.Some? ==>
           && o.target != o.ref && o.target.value in l.rows && o.target.value < |b.facts|
           && b.facts[o.target.value].source == b.facts[o.ref.value].source
           && l.rows[o.target.value].status != Active
           && (l.rows[o.target.value].status == Archived <==> b.facts[o.target.value].expired)
           && b.facts[o.target.value].supersededBy == o.ref)
      && (forall k: Key :: k.RestoreKey? || k.ArchiveKey? || k.ForgetKey? ==> k !in b.bindings)
      && (forall k <- b.operations :: b.operations[k].kind != TombstoneOp)
  {
    assert ReviewMatchesLog(l, q.review) && EffectRecorded(l, l.ops[q.opId]);
  }

  function RevertKey(q: RevertRequest, o: Op): Key {
    if o.action == Supersession && o.target.Some? then RestoreKey(q.review, q.idem) else ArchiveKey(q.review, q.idem)
  }

  /** The created fact is expired, the superseded one no longer superseded, the rest untouched. */
  ghost predicate Reverted(b: Brain, b': Brain, o: Op) {
    && |b'.facts| == |b.facts|
    && forall f | 0 <= f < |b.facts| ::
         b'.facts[f] == if o.ref == Some(f) then b.facts[f].(expired := true)
                        else if o.target == Some(f) then b.facts[f].(supersededBy := None)
                        else b.facts[f]
  }

  /** GBrain's half of a revert under a fresh key: what it changes, and when it is refused. */
  lemma RevertGoesThrough(b: Brain, q: RevertRequest, o: Op)
    requires RevertKey(q, o) !in b.operations
    requires forall k: Key :: k.RestoreKey? || k.ArchiveKey? ==> k !in b.bindings
    requires forall k <- b.operations :: b.operations[k].kind != TombstoneOp
    requires (o.action.CreatesFact() <==> o.ref.Some?) && (o.action == Supersession <==> o.target.Some?)
    requires o.ref.Some? ==> o.ref.value < |b.facts|
    requires o.target.Some? ==>
      && o.target != o.ref && o.target.value < |b.facts|
      && b.facts[o.target.value].source == b.facts[o.ref.value].source && b.facts[o.target.value].supersededBy == o.ref
    ensures var step := RevertBrain(b, q, o);
      if o.target.Some? && b.facts[o.target.value].expired then
        step.reply.Fail? && step.brain == b
      else
        && step.reply.Ok? && Reverted(b, step.brain, o)
        && (forall k <- step.brain.operations ::
              k in b.operations || k == RestoreKey(q.review, q.idem) || k == ArchiveKey(q.review, q.idem))
  {
  }

  /** A key that was already spent makes GBrain answer from its log and change nothing. */
  lemma SpentRevertDoesNothing(b: Brain, q: RevertRequest, o: Op)
    requires o.action.CreatesFact() && o.ref.Some? ==> RevertKey(q, o) in b.operations
    ensures RevertBrain(b, q, o).brain == b
  {
  }

  lemma RevertedAgrees(l: Ledger, b: Brain, b': Brain, review: nat, idem: string, opId: nat, except: set<FactId>, open: set<Pair>)
    requires Agree(l, b, except) && KeysSpent(l, b, open) && RevertReady(l, review, idem, opId)
    requires var o, e := l.ops[opId], l.events[l.reviews[review].origin];
      && (o.action == Supersession <==> o.target.Some?)
      && (o.ref.Some? ==>
            && OwnedRow(l.rows, o.ref.value, e.tenant, e.user) && o.ref.value < |b.facts|
            && l.rows[o.ref.value].supersededBy == b.facts[o.ref.value].supersededBy)
      && (o.target.Some? ==>
            && OwnedRow(l.rows, o.target.value, e.tenant, e.user) && o.target.value < |b.facts|
            && o.target != o.ref && !b.facts[o.target.value].expired)
      && Reverted(b, b', o)
    requires forall k <- b'.operations :: k in b.operations || k == RestoreKey(review, idem) || k == ArchiveKey(review, idem)
    ensures var l' := CommitRevert(l, review, idem, opId); Agree(l', b', except) && KeysSpent(l', b', open)
  {
  }

  lemma RevertCommitsBoth(s: Store, q: RevertRequest, commits: nat)
    requires RevertStop(s.ledger, q).None? && commits >= 2
    ensures var step := RevertBrain(s.brain, q, s.ledger.ops[q.opId]);
      var s' := RevertOp(s, q, commits).store;
      && s'.brain == step.brain
      && (step.reply.Fail? || RevertRefusal(s.ledger, q).Some? ==> s'.ledger == s.ledger)
      && (step.reply.Ok? && RevertRefusal(s.ledger, q).None? ==> s'.ledger == CommitRevert(s.ledger, q.review, q.idem, q.opId))
  {
    hide RevertStop, RevertBrain, CommitRevert, RevertRefusal;
  }

  /** A completed revert keeps the stores in step, unless it is one of the requests that strand them. */
  lemma RevertAgrees(s: Store, q: RevertRequest, commits: nat, except: set<FactId>, open: set<Pair>)
    requires Consistent(s, except, open) && commits >= 2
    requires RevertTouches(s.ledger, q) !! except && (q.review, q.idem) !in open
    ensures !RevertStrands(s, q) ==> Consistent(RevertOp(s, q, commits).store, except, open)
    ensures RevertStrands(s, q) ==> var s' := RevertOp(s, q, commits).store; !Agree(s'.ledger, s'.brain, except)
  {
    hide LedgerOk, KeysMatch, Agree, KeysSpent;
    RevertKeepsStore(s, q, commits);
    if RevertStop(s.ledger, q).None? {
      if q.idem in s.ledger.opByKey {
        TakenRevertAgrees(s, q, commits, except, open);
      } else {
        FreeRevertAgrees(s, q, commits, except, open);
      }
    }
  }

  lemma FreeRevertAgrees(s: Store, q: RevertRequest, commits: nat, except: set<FactId>, open: set<Pair>)
    requires Consistent(s, except, open) && commits >= 2
    requires RevertTouches(s.ledger, q) !! except && (q.review, q.idem) !in open
    requires RevertStop(s.ledger, q).None? && q.idem !in s.ledger.opByKey
    ensures var s' := RevertOp(s, q, commits).store;
      Agree(s'.ledger, s'.brain, except) && KeysSpent(s'.ledger, s'.brain, open)
  {
    hide LedgerOk, KeysMatch, Agree, LogsAlternate, OriginsMatch, EffectsMatch, EventsMatch, TombstonesMatch, CrystalsFresh,
      RevertStop, RevertOp, RevertBrain, RevertRefusal, Reverted, CommitRevert;
    var l, b, o := s.ledger, s.brain, s.ledger.ops[q.opId];
    LedgerParts(l);
    RevertedFacts(l, b, q, except);
    RevertGoesThrough(b, q, o);
    hide KeysSpent;
    RevertIsReady(l, q);
    TombstoneNeverMissing(l, q.review, q.idem, q.opId);
    RevertCommitsBoth(s, q, commits);
    var step := RevertBrain(b, q, o);
    if step.reply.Ok? {
      RevertedAgrees(l, b, step.brain, q.review, q.idem, q.opId, except, open);
    }
  }

  /** The ledger refuses the key, so only GBrain may have moved. */
  lemma TakenRevertAgrees(s: Store, q: RevertRequest, commits: nat, except: set<FactId>, open: set<Pair>)
    requires Consistent(s, except, open) && commits >= 2
    requires RevertTouches(s.ledger, q) !! except
    requires RevertStop(s.ledger, q).None? && q.idem in s.ledger.opByKey
    ensures var s' := RevertOp(s, q, commits).store;
      if RevertStrands(s, q) then !Agree(s'.ledger, s'.brain, except)
      else Agree(s'.ledger, s'.brain, except) && KeysSpent(s'.ledger, s'.brain, open)
  {
    hide LedgerOk, KeysMatch, Agree, KeysSpent, LogsAlternate, OriginsMatch, EffectsMatch, EventsMatch, TombstonesMatch,
      CrystalsFresh, RevertStop, RevertOp, RevertBrain, CommitRevert;
    var l, b, o := s.ledger, s.brain, s.ledger.ops[q.opId];
    LedgerParts(l);
    RevertedFacts(l, b, q, except);
    RevertCommitsBoth(s, q, commits);
    if RevertKey(q, o) in b.operations || o.ref.None? {
      SpentRevertDoesNothing(b, q, o);
    } else {
      RevertGoesThrough(b, q, o);
      var step := RevertBrain(b, q, o);
      if RevertStrands(s, q) {
        DisagreeAt(l, step.brain, if o.target.Some? then o.target.value else o.ref.value, except);
      } else if step.reply.Ok? {
        UnmovedAgrees(l, b, step.brain, q, o, except, open);
      }
    }
  }

  lemma UnmovedAgrees(l: Ledger, b: Brain, b': Brain, q: RevertRequest, o: Op, except: set<FactId>, open: set<Pair>)
    requires Agree(l, b, except) && KeysSpent(l, b, open) && q.idem in l.opByKey
    requires Reverted(b, b', o) && o.target.None? && o.ref.Some? && o.ref.value < |b.facts| && b.facts[o.ref.value].expired
    requires forall k <- b'.operations :: k in b.operations || k == RestoreKey(q.review, q.idem) || k == ArchiveKey(q.review, q.idem)
    ensures Agree(l, b', except) && KeysSpent(l, b', open)
  {
  }

  /** A committed revert of a supersession found its target superseded, never archived: the restore, which does
      not look at the status it replaces, only ever moves superseded to active. */
  lemma RestoreMovesSupersededToActive(s: Store, q: RevertRequest, commits: nat, except: set<FactId>, open: set<Pair>)
    requires Consistent(s, except, open) && RevertTouches(s.ledger, q) !! except && (q.review, q.idem) !in open
    requires RevertOp(s, q, commits).answer.Done? && q.opId < |s.ledger.ops| && s.ledger.ops[q.opId].action == Supersession
    ensures s.ledger.ops[q.opId].target.Some?
    ensures var t := s.ledger.ops[q.opId].target.value;
      && t in s.ledger.rows && s.ledger.rows[t].status == Superseded
      && t in RevertOp(s, q, commits).store.ledger.rows && RevertOp(s, q, commits).store.ledger.rows[t].status == Active
  {
    var l, b, o := s.ledger, s.brain, s.ledger.ops[q.opId];
    DoneRevertCommitted(s, q, commits);
    hide LedgerOk, KeysMatch, Agree, LogsAlternate, OriginsMatch, EffectsMatch, EventsMatch, TombstonesMatch, CrystalsFresh,
      RevertOp, RevertStop, RevertBrain, Reverted, CommitRevert, RevertRefusal;
    LedgerParts(l);
    RevertedFacts(l, b, q, except);
    RevertIsReady(l, q);
    TombstoneNeverMissing(l, q.review, q.idem, q.opId);
    RevertGoesThrough(b, q, o);
    RevertedTargetIsActive(l, q.review, q.idem, q.opId);
  }

  lemma DoneRevertCommitted(s: Store, q: RevertRequest, commits: nat)
    requires RevertOp(s, q, commits).answer.Done?
    ensures RevertStop(s.ledger, q).None? && RevertRefusal(s.ledger, q).None? && q.idem !in s.ledger.opByKey
    ensures RevertBrain(s.brain, q, s.ledger.ops[q.opId]).reply.Ok?
    ensures RevertOp(s, q, commits).store.ledger == CommitRevert(s.ledger, q.review, q.idem, q.opId)
  {
    hide RevertStop, RevertBrain, CommitRevert;
  }

  lemma RevertedTargetIsActive(l: Ledger, review: nat, idem: string, opId: nat)
    requires RevertReady(l, review, idem, opId) && l.ops[opId].action == Supersession && l.ops[opId].target.Some?
    requires l.ops[opId].target != l.ops[opId].ref
    requires var e := l.events[l.reviews[review].origin]; OwnedRow(l.rows, l.ops[opId].target.value, e.tenant, e.user)
    ensures var t := l.ops[opId].target.value; var rows := CommitRevert(l, review, idem, opId).rows;
      t in rows && rows[t].status == Active
  {
  }

  // ---- the other requests

  /** A forget key is spent only on an expired fact, so a live row can always be forgotten. */
  lemma ForgetAgrees(s: Store, who: Principal, ref: FactId, commits: nat, except: set<FactId>, open: set<Pair>)
    requires Consistent(s, except, open) && commits >= 2 && ref !in except
    ensures Consistent(Forget(s, who, ref, commits).store, except, open)
    ensures OwnedRow(s.ledger.rows, ref, who.tenant, who.user) && s.ledger.rows[ref].binding.workspace == who.workspace ==>
      Forget(s, who, ref, commits).answer.Settled?
  {
    hide LedgerOk, KeysMatch, Agree, KeysSpent;
    ForgetKeepsStore(s, who, ref, commits);
    var l, b := s.ledger, s.brain;
    if OwnedRow(l.rows, ref, who.tenant, who.user) && l.rows[ref].status == Active {
      ForgottenAgrees(l, b, ref, who, except, open);
    }
  }

  lemma ForgottenAgrees(l: Ledger, b: Brain, ref: FactId, who: Principal, except: set<FactId>, open: set<Pair>)
    requires Consistent(Store(l, b), except, open) && ref !in except
    requires OwnedRow(l.rows, ref, who.tenant, who.user) && l.rows[ref].status == Active
    ensures var step, l' := SetExpired(b, ForgetKey(ref, who.workspace), ref, ArchiveOp), CommitForget(l, ref, who.tenant, who.user);
      step.reply.Ok? && Agree(l', step.brain, except) && KeysSpent(l', step.brain, open)
  {
    hide LedgerOk, KeyPlaced, BindingOf, StatusOf;
    var key := ForgetKey(ref, who.workspace);
    ForgetKeyIsFresh(l, b, ref, key, except, open);
    ArchivedBrain(b, key, ref);
    hide KeysMatch, SetExpired;
    ForgottenRow(l, ref, who.tenant, who.user);
    hide CommitForget;
    ArchivedAgrees(l, CommitForget(l, ref, who.tenant, who.user), b, SetExpired(b, key, ref, ArchiveOp).brain, ref, key, except, open);
  }

  lemma ForgetKeyIsFresh(l: Ledger, b: Brain, ref: FactId, key: Key, except: set<FactId>, open: set<Pair>)
    requires KeysMatch(l, b) && Agree(l, b, except) && KeysSpent(l, b, open) && ref in l.rows && ref !in except && l.rows[ref].status == Active
    requires key.ForgetKey? && key.ref == ref
    ensures key !in b.operations && key !in b.bindings && ref < |b.facts|
    ensures forall k <- b.operations :: b.operations[k].kind != TombstoneOp
  {
    hide KeyPlaced;
  }

  lemma ArchivedBrain(b: Brain, key: Key, ref: FactId)
    requires key !in b.operations && key !in b.bindings && ref < |b.facts| && forall k <- b.operations :: b.operations[k].kind != TombstoneOp
    ensures SetExpired(b, key, ref, ArchiveOp)
         == Step(b.(facts := b.facts[ref := b.facts[ref].(expired := true)],
                    operations := b.operations[key := Operation(ArchiveOp, OnFact(ref), FactRef(ref))]), Ok(FactRef(ref)))
  {
  }

  lemma ForgottenRow(l: Ledger, ref: FactId, tenant: string, user: string)
    requires ref in l.rows
    ensures var l' := CommitForget(l, ref, tenant, user);
      l'.rows == l.rows[ref := l.rows[ref].(status := Archived, updated := l.revision + 1)] && l'.opByKey == l.opByKey
  {
  }

  lemma ArchivedAgrees(l: Ledger, l': Ledger, b: Brain, b': Brain, ref: FactId, key: Key, except: set<FactId>, open: set<Pair>)
    requires Agree(l, b, except) && KeysSpent(l, b, open) && ref in l.rows && ref !in except && ref < |b.facts| && key.ForgetKey? && key.ref == ref
    requires l'.rows == l.rows[ref := l.rows[ref].(status := Archived, updated := l.revision + 1)] && l'.opByKey == l.opByKey
    requires b'.facts == b.facts[ref := b.facts[ref].(expired := true)] && b'.operations.Keys == b.operations.Keys + {key}
    ensures Agree(l', b', except) && KeysSpent(l', b', open)
  {
  }

  /** Requests that change neither the state of a fact with a row nor the status of a row. */
  lemma QuietAgrees(l: Ledger, b: Brain, l': Ledger, b': Brain, except: set<FactId>, open: set<Pair>)
    requires Agree(l, b, except) && KeysSpent(l, b, open)
    requires |b.facts| <= |b'.facts| && forall f | 0 <= f < |b.facts| :: b'.facts[f] == b.facts[f]
    requires forall k <- b'.operations :: (k in b.operations && b'.operations[k] == b.operations[k]) || k.CrystalKey?
    requires forall r <- l'.rows ::
      || (r in l.rows && l'.rows[r] == l.rows[r])
      || (r < |b'.facts| && b'.facts[r].Live() && l'.rows[r].status == Active && l'.rows[r].supersededBy.None?)
    requires l'.opByKey == l.opByKey
    ensures Agree(l', b', except) && KeysSpent(l', b', open)
  {
  }

  lemma WorkerAgrees(s: Store, key: EventKey, luck: Luck, commits: nat, except: set<FactId>, open: set<Pair>)
    requires Consistent(s, except, open) && Due(s.ledger, key)
    ensures Consistent(WorkerPass(s, key, luck, commits).store, except, open)
  {
    WorkerKeepsStore(s, key, luck, commits);
    hide LedgerOk;
    var l, b, e := s.ledger, s.brain, s.ledger.events[key];
    LedgerParts(l);
    var step := Upsert(b, WorkerKey(key), e.tenant, e.payload.content);
    WorkerFactIsLive(l, b, key);
    WorkerCommitsQuiet(s, key, luck, commits);
    hide KeysMatch, Agree, KeysSpent, WorkerPass, LogsAlternate, OriginsMatch, EffectsMatch, EventsMatch, TombstonesMatch, CrystalsFresh;
    QuietAgrees(l, b, WorkerPass(s, key, luck, commits).store.ledger, WorkerPass(s, key, luck, commits).store.brain, except, open);
  }

  lemma WorkerFactIsLive(l: Ledger, b: Brain, key: EventKey)
    requires KeysMatch(l, b) && OriginsMatch(l) && Due(l, key)
    ensures var step := Upsert(b, WorkerKey(key), l.events[key].tenant, l.events[key].payload.content);
      && step.reply.Ok? && step.reply.ref.id !in l.rows && step.reply.ref.id < |step.brain.facts|
      && step.brain.facts[step.reply.ref.id].Live()
      && |b.facts| <= |step.brain.facts| && (forall f | 0 <= f < |b.facts| :: step.brain.facts[f] == b.facts[f])
      && step.brain.operations == b.operations
  {
    var e := l.events[key];
    UpsertKeepsKeys(l, b, WorkerKey(key), e.tenant, e.payload.content);
    var step := Upsert(b, WorkerKey(key), e.tenant, e.payload.content);
    WorkerIsReady(l, step.brain, key);
    assert forall f | 0 <= f < |b.facts| :: step.brain.facts[f] == step.brain.facts[..|b.facts|][f];
  }

  lemma WorkerCommitsQuiet(s: Store, key: EventKey, luck: Luck, commits: nat)
    requires Due(s.ledger, key)
    ensures var s', step := WorkerPass(s, key, luck, commits).store,
                           Upsert(s.brain, WorkerKey(key), s.ledger.events[key].tenant, s.ledger.events[key].payload.content);
      && (s'.brain == s.brain || s'.brain == step.brain)
      && s'.ledger.opByKey == s.ledger.opByKey
      && (forall r <- s'.ledger.rows ::
           || (r in s.ledger.rows && s'.ledger.rows[r] == s.ledger.rows[r])
           || (step.reply.Ok? && r == step.reply.ref.id && s'.brain == step.brain
               && s'.ledger.rows[r].status == Active && s'.ledger.rows[r].supersededBy.None?))
  {
    var l, e := s.ledger, s.ledger.events[key];
    var step := Upsert(s.brain, WorkerKey(key), e.tenant, e.payload.content);
    var x := ExternalKeyOf(e, if e.payload.provenance.Some? then e.payload.provenance.value else Provenance("", "", ""));
    EventCommitsKeepRows(l, key, if step.reply.Ok? then step.reply.ref.id else 0, if x in l.externals then l.externals[x].backendRef else None);
    WorkerShape(s, key, luck, commits);
    hide Upsert, CommitApplied, CommitReview, CommitDuplicate, CommitRetry, CommitDeadLetter, WorkerPass;
  }

  /** The worker's pass ends in one of these stores. */
  lemma WorkerShape(s: Store, key: EventKey, luck: Luck, commits: nat)
    requires Due(s.ledger, key)
    ensures var l, e := s.ledger, s.ledger.events[key];
      var s', step := WorkerPass(s, key, luck, commits).store, Upsert(s.brain, WorkerKey(key), e.tenant, e.payload.content);
      var x := ExternalKeyOf(e, if e.payload.provenance.Some? then e.payload.provenance.value else Provenance("", "", ""));
      || (step.reply.Ok? && s' == Store(CommitApplied(l, key, step.reply.ref.id), step.brain))
      || ((s'.brain == s.brain || s'.brain == step.brain)
         && (s'.ledger == l || s'.ledger == CommitDeadLetter(l, key) || s'.ledger == CommitRetry(l, key)
             || s'.ledger == CommitReview(l, key) || (x in l.externals && s'.ledger == CommitDuplicate(l, key, l.externals[x].backendRef))))
  {
    hide Upsert, CommitApplied, CommitReview, CommitDuplicate, CommitRetry, CommitDeadLetter;
  }

  lemma EventCommitsKeepRows(l: Ledger, key: EventKey, ref: FactId, found: Option<FactId>)
    requires key in l.events
    ensures CommitReview(l, key).rows == l.rows && CommitReview(l, key).opByKey == l.opByKey
    ensures CommitDuplicate(l, key, found).rows == l.rows && CommitDuplicate(l, key, found).opByKey == l.opByKey
    ensures CommitRetry(l, key).rows == l.rows && CommitRetry(l, key).opByKey == l.opByKey
    ensures CommitDeadLetter(l, key).rows == l.rows && CommitDeadLetter(l, key).opByKey == l.opByKey
    ensures CommitApplied(l, key, ref).opByKey == l.opByKey
    ensures forall r <- CommitApplied(l, key, ref).rows ::
      || (r in l.rows && CommitApplied(l, key, ref).rows[r] == l.rows[r])
      || (r == ref && CommitApplied(l, key, ref).rows[r].status == Active && CommitApplied(l, key, ref).rows[r].supersededBy.None?)
  {
  }

  lemma RebuildAgrees(s: Store, who: Principal, scope: Scope, ns: string, idem: string, commits: nat, except: set<FactId>, open: set<Pair>)
    requires Consistent(s, except, open)
    ensures Consistent(RebuildCrystal(s, who, scope, ns, idem, commits).store, except, open)
  {
    hide LedgerOk, KeysMatch, Agree, KeysSpent, Rebuild, Sources;
    RebuildKeepsStore(s, who, scope, ns, idem, commits);
    var binding := ScopeBinding(who.tenant, who.user, who.workspace, scope, ns);
    RebuildIsQuiet(s.brain, CrystalKey(binding, idem), who.tenant, Sources(s.ledger.rows, binding), binding);
    var s' := RebuildCrystal(s, who, scope, ns, idem, commits).store;
    QuietAgrees(s.ledger, s.brain, s'.ledger, s'.brain, except, open);
  }

  lemma RebuildIsQuiet(b: Brain, key: Key, source: string, refs: set<FactId>, binding: ScopeBinding)
    ensures var b' := Rebuild(b, key, source, refs, binding).brain;
      b'.facts == b.facts && forall k <- b'.operations :: (k in b.operations && b'.operations[k] == b.operations[k]) || k == key
  {
  }

  lemma SubmitAgrees(s: Store, who: Principal, id: string, scope: Scope, payload: Payload, except: set<FactId>, open: set<Pair>)
    requires Consistent(s, except, open)
    ensures Consistent(Submit(s, who, id, scope, payload).store, except, open)
  {
    hide LedgerOk, KeysMatch, Agree, KeysSpent, StoreOk;
    SubmitKeepsStore(s, who, id, scope, payload);
    var s' := Submit(s, who, id, scope, payload).store;
    QuietAgrees(s.ledger, s.brain, s'.ledger, s'.brain, except, open);
  }

  // ---- every run of complete requests

  predicate Strands(s: Store, r: Request) {
    match r
    case Resolving(q) => ResolveStrands(s, q)
    case Reverting(q) => RevertStrands(s, q)
    case _ => false
  }

  /** No request of the run is one that strands the stores when its turn comes. */
  predicate Clean(s: Store, requests: seq<Request>)
    decreases |requests|
  {
    requests == [] || (!Strands(s, requests[0]) && Clean(Serve(s, requests[0], 3), requests[1..]))
  }

  function Complete(requests: seq<Request>): (attempts: seq<Attempt>)
    ensures |attempts| == |requests|
  {
    seq(|requests|, i requires 0 <= i < |requests| => Attempt(requests[i], 3))
  }

  /** A complete request leaves two stores in step exactly when it does not strand them. */
  lemma ServeAgreesExactly(s: Store, r: Request)
    requires Consistent(s, {}, {})
    ensures Consistent(Serve(s, r, 3), {}, {}) <==> !Strands(s, r)
  {
    hide Consistent, ResolveStrands, RevertStrands;
    match r
    case Submitting(who, id, scope, payload) => SubmitAgrees(s, who, id, scope, payload, {}, {});
    case Working(key, luck) => if Due(s.ledger, key) { WorkerAgrees(s, key, luck, 3, {}, {}); }
    case Resolving(q) => ResolveAgrees(s, q, 3, {}, {}); Inconsistent(Serve(s, r, 3));
    case Reverting(q) => RevertAgrees(s, q, 3, {}, {}); Inconsistent(Serve(s, r, 3));
    case Forgetting(who, ref) => ForgetAgrees(s, who, ref, 3, {}, {});
    case Rebuilding(who, scope, ns, idem) => RebuildAgrees(s, who, scope, ns, idem, 3, {}, {});
  }

  lemma Inconsistent(s: Store)
    ensures !Agree(s.ledger, s.brain, {}) ==> !Consistent(s, {}, {})
  {
  }

  lemma {:induction false} CleanRunAgrees(s: Store, requests: seq<Request>)
    requires Consistent(s, {}, {}) && Clean(s, requests)
    ensures Consistent(Run(s, Complete(requests)), {}, {})
    decreases |requests|
  {
    hide Consistent, Serve, Strands;
    if requests != [] {
      ServeAgreesExactly(s, requests[0]);
      CleanRunAgrees(Serve(s, requests[0], 3), requests[1..]);
      assert Complete(requests)[1..] == Complete(requests[1..]);
    }
  }

  /** In every state a run of complete requests reaches without a stranding one, the two stores agree: a row is
      archived, superseded or active exactly as its fact is, and the superseded-by pointers match. */
  lemma StoresAgree(requests: seq<Request>)
    requires Clean(EMPTY, requests)
    ensures var s := Run(EMPTY, Complete(requests)); Agree(s.ledger, s.brain, {})
  {
    CleanRunAgrees(EMPTY, requests);
  }
}
