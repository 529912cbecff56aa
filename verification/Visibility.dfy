/** What a principal can retrieve (src/agent_memory_gateway/query_service.py), as the observer of the lifecycle. */
module Visibility {
  import opened Names
  import opened Ledger
  import opened Lifecycle
  import opened LedgerInvariants
  import opened AllRuns
  import opened StoreAgreement
  import opened CrashRecovery

  predicate InScope(k: EventKey, e: Event, who: Principal) {
    match e.scope
    case UserScope => true
    case WorkspaceScope => e.workspace == who.workspace
    case DeviceScope => k.device == who.device
    case AgentScope => e.agent == who.agent
    case PrivateScope => k.device == who.device && e.agent == who.agent
  }

  /** The authorization query; an event without a lifecycle row counts as active with its own marker. */
  predicate EventVisible(l: Ledger, k: EventKey, who: Principal) {
    && k in l.events
    && var e := l.events[k];
    && e.tenant == who.tenant && e.user == who.user && e.status == Applied && e.backendRef.Some?
    && (if e.backendRef.value in l.rows
        then l.rows[e.backendRef.value].status == Active && !l.rows[e.backendRef.value].instruction
        else !e.payload.instruction)
    && InScope(k, e, who)
  }

  function VisibleRefs(l: Ledger, who: Principal): set<FactId> {
    set k | k in l.events && EventVisible(l, k, who) :: l.events[k].backendRef.value
  }

  /** get_by_refs then keeps the live facts among them. */
  function Delivered(s: Store, who: Principal): set<FactId> {
    set r | r in VisibleRefs(s.ledger, who) && r < |s.brain.facts| && s.brain.facts[r].Live()
  }

  /** Where the stores agree, GBrain's own filter drops nothing the ledger authorizes. */
  lemma AuthorizedIsDelivered(s: Store, who: Principal)
    requires Consistent(s, {}, {})
    ensures Delivered(s, who) == VisibleRefs(s.ledger, who)
  {
    hide LedgerOk, KeysMatch, LogsAlternate, OriginsMatch, EffectsMatch, TombstonesMatch, CrystalsFresh, KeysSpent;
    LedgerParts(s.ledger);
    forall r | r in VisibleRefs(s.ledger, who) ensures r in Delivered(s, who) {
    }
  }

  /** A memory that is not active, or is instruction-like, is visible to nobody. */
  lemma HiddenFromEveryone(s: Store, who: Principal, r: FactId)
    requires StoreOk(s) && r in s.ledger.rows && (s.ledger.rows[r].status != Active || s.ledger.rows[r].instruction)
    ensures r !in VisibleRefs(s.ledger, who)
  {
  }

  /** The same events are visible when no event's outcome changes between two ledgers. */
  lemma SameVisible(l: Ledger, l': Ledger, who: Principal)
    requires forall k: EventKey :: EventVisible(l, k, who) ==> EventVisible(l', k, who) && l'.events[k].backendRef == l.events[k].backendRef
    requires forall k: EventKey :: EventVisible(l', k, who) ==> EventVisible(l, k, who)
    ensures VisibleRefs(l', who) == VisibleRefs(l, who)
  {
    forall r | r in VisibleRefs(l, who) ensures r in VisibleRefs(l', who) {
      var k :| k in l.events && EventVisible(l, k, who) && l.events[k].backendRef.value == r;
      assert EventVisible(l', k, who);
    }
    forall r | r in VisibleRefs(l', who) ensures r in VisibleRefs(l, who) {
      var k :| k in l'.events && EventVisible(l', k, who) && l'.events[k].backendRef.value == r;
      assert EventVisible(l, k, who);
    }
  }

  /** Confirming (or superseding) and reverting it, seen from the rows and events it changes. */
  lemma ConfirmThenRevertRestores(l: Ledger, review: nat, idem: string, action: Action, payload: Payload, ref: FactId,
                                  target: Option<FactId>, undo: string, who: Principal)
    requires EventsMatch(l) && ConfirmReady(l, review, idem, action, payload, ref, target)
    requires var l1 := CommitConfirm(l, review, idem, action, payload, ref, target);
      l1.reviews[review].origin in l1.events
    ensures var l1 := CommitConfirm(l, review, idem, action, payload, ref, target);
      VisibleRefs(CommitRevert(l1, review, undo, |l.ops|), who) == VisibleRefs(l, who)
  {
    hide CommitConfirm, CommitRevert;
    var l1 := CommitConfirm(l, review, idem, action, payload, ref, target);
    UndoneRows(l, review, idem, action, payload, ref, target, undo);
    var l2 := CommitRevert(l1, review, undo, |l.ops|);
    var origin := l.reviews[review].origin;
    UnconfirmedHasNoRef(l, review, idem, action, payload, ref, target);
    forall k: EventKey
      ensures EventVisible(l, k, who) ==> EventVisible(l2, k, who) && l2.events[k].backendRef == l.events[k].backendRef
      ensures EventVisible(l2, k, who) ==> EventVisible(l, k, who)
    {
    }
    SameVisible(l, l2, who);
  }

  lemma UnconfirmedHasNoRef(l: Ledger, review: nat, idem: string, action: Action, payload: Payload, ref: FactId, target: Option<FactId>)
    requires EventsMatch(l) && ConfirmReady(l, review, idem, action, payload, ref, target)
    ensures l.events[l.reviews[review].origin].backendRef.None?
  {
    assert Reviewed(l.events, l.reviews[review].origin);
    hide BindingOf;
  }

  lemma UndoneRows(l: Ledger, review: nat, idem: string, action: Action, payload: Payload, ref: FactId,
                   target: Option<FactId>, undo: string)
    requires ConfirmReady(l, review, idem, action, payload, ref, target)
    ensures var l1 := CommitConfirm(l, review, idem, action, payload, ref, target);
      && review < |l1.reviews| && l1.reviews[review].origin in l1.events && |l1.ops| == |l.ops| + 1
      && var l2, origin := CommitRevert(l1, review, undo, |l.ops|), l.reviews[review].origin;
      && l2.events.Keys == l.events.Keys && (forall k <- l.events | k != origin :: l2.events[k] == l.events[k])
      && l2.events[origin].backendRef == Some(ref) && ref in l2.rows && l2.rows[ref].status == Archived
      && (forall r <- l.rows :: r in l2.rows && l2.rows[r].status == l.rows[r].status && l2.rows[r].instruction == l.rows[r].instruction)
      && l2.rows.Keys == l.rows.Keys + {ref}
  {
    hide Redirected, MarkStale, ConfirmedTombstones, RevertedTombstones, RevertedCrystals;
  }

  lemma DoneResolveCommitted(s: Store, q: ResolveRequest, n: nat)
    requires StoreOk(s) && Resolve(s, q, n).answer.Done?
    ensures q.review < |s.ledger.reviews| && s.ledger.reviews[q.review].origin in s.ledger.events
    ensures var l, l1 := s.ledger, Resolve(s, q, n).store.ledger;
      if q.action.CreatesFact() then
        exists ref: FactId {:trigger CommitConfirm(l, q.review, q.idem, q.action, ResolvedPayload(l, q), ref, ConfirmTarget(q))} ::
          && ConfirmReady(l, q.review, q.idem, q.action, ResolvedPayload(l, q), ref, ConfirmTarget(q))
          && l1 == CommitConfirm(l, q.review, q.idem, q.action, ResolvedPayload(l, q), ref, ConfirmTarget(q))
      else l1 == CommitClose(l, q.review, q.idem, q.action) && q.action != Revert && l1.reviews[q.review].lastOp == Some(|l.ops|)
  {
    var l := s.ledger;
    assert ResolveStop(l, q).None?;
    if q.action.CreatesFact() {
      hide LedgerOk, KeysMatch, ConfirmReady, CommitConfirm, LogsAlternate, OriginsMatch, EffectsMatch, EventsMatch,
        TombstonesMatch, CrystalsFresh, ConfirmBrain, ResolveStop, ConfirmRefusal;
      LedgerParts(l);
      var step := ConfirmBrain(l, s.brain, q, n);
      ConfirmBrainKeepsKeys(l, s.brain, q, n);
      ConfirmIsReady(l, step.brain, q, step.reply.ref.id);
      assert Resolve(s, q, n).store.ledger
          == CommitConfirm(l, q.review, q.idem, q.action, ResolvedPayload(l, q), step.reply.ref.id, ConfirmTarget(q));
    }
  }

  function ConfirmTarget(q: ResolveRequest): Option<FactId> {
    if q.action == Supersession then q.target else None
  }

  /** A committed resolve of any action, followed directly by its revert, leaves what the ledger authorises every
      principal to retrieve exactly as it was. */
  lemma ResolveThenRevertKeepsAuthorised(s: Store, q: ResolveRequest, n: nat, undo: RevertRequest, m: nat, who: Principal)
    requires StoreOk(s) && Resolve(s, q, n).answer.Done? && undo.review == q.review
    requires RevertOp(Resolve(s, q, n).store, undo, m).answer.Done?
    ensures VisibleRefs(RevertOp(Resolve(s, q, n).store, undo, m).store.ledger, who) == VisibleRefs(s.ledger, who)
  {
    hide LedgerOk, KeysMatch, Resolve, RevertOp, ConfirmReady;
    var l, s1 := s.ledger, Resolve(s, q, n).store;
    DoneResolveCommitted(s, q, n);
    DoneRevertCommitted(s1, undo, m);
    RevertedLatest(s1.ledger, undo);
    if q.action.CreatesFact() {
      var ref: FactId :| ConfirmReady(l, q.review, q.idem, q.action, ResolvedPayload(l, q), ref, ConfirmTarget(q))
        && s1.ledger == CommitConfirm(l, q.review, q.idem, q.action, ResolvedPayload(l, q), ref, ConfirmTarget(q));
      LedgerEvents(l);
      ConfirmThenRevertRestores(l, q.review, q.idem, q.action, ResolvedPayload(l, q), ref, ConfirmTarget(q), undo.idem, who);
    } else {
      CloseThenRevertRestores(l, q.review, q.idem, q.action, undo.idem, who);
    }
  }

  lemma LedgerEvents(l: Ledger)
    requires LedgerOk(l)
    ensures EventsMatch(l)
  {
  }

  lemma RevertedLatest(l: Ledger, undo: RevertRequest)
    requires RevertStop(l, undo).None?
    ensures l.reviews[undo.review].lastOp == Some(undo.opId)
  {
  }

  lemma CloseThenRevertRestores(l: Ledger, review: nat, idem: string, action: Action, undo: string, who: Principal)
    requires review < |l.reviews| && l.reviews[review].origin in l.events && !action.CreatesFact() && action != Revert
    ensures VisibleRefs(CommitRevert(CommitClose(l, review, idem, action), review, undo, |l.ops|), who) == VisibleRefs(l, who)
  {
    var l2 := CommitRevert(CommitClose(l, review, idem, action), review, undo, |l.ops|);
    assert l2.rows == l.rows && l2.events == l.events;
  }

  // ---- what GBrain then delivers

  /** A committed resolve, or revert, is none of those that strand the stores, and has all the commits it needs. */
  lemma DoneResolveAgrees(s: Store, q: ResolveRequest, n: nat)
    requires Consistent(s, {}, {}) && Resolve(s, q, n).answer.Done?
    ensures Consistent(Resolve(s, q, n).store, {}, {})
  {
    hide Consistent, Resolve, ResolveStrands;
    DoneResolveIsFinal(s, q, n, n + 3);
    DoneResolveStrandsNothing(s, q, n + 3);
    ResolveAgrees(s, q, n + 3, {}, {});
  }

  lemma DoneResolveStrandsNothing(s: Store, q: ResolveRequest, n: nat)
    requires Consistent(s, {}, {}) && Resolve(s, q, n).answer.Done? && n >= 3
    ensures !ResolveStrands(s, q)
  {
    hide LedgerOk, KeysMatch, Agree, KeysSpent, ResolveStop, ConfirmBrain, CommitConfirm, CommitClose, LogsAlternate, OriginsMatch, EffectsMatch,
      EventsMatch, TombstonesMatch, CrystalsFresh, ConfirmRefusal;
    var l, b := s.ledger, s.brain;
    LedgerParts(l);
    if ResolveStrands(s, q) {
      CreateKeyIsFresh(l, b, q);
      SupersessionGoesThrough(l, b, q, n, {});
      RefusedExactlyWhenStranding(s, q, ConfirmBrain(l, b, q, n).reply.ref.id);
    }
  }

  lemma DoneRevertAgrees(s: Store, p: RevertRequest, m: nat)
    requires Consistent(s, {}, {}) && RevertOp(s, p, m).answer.Done?
    ensures Consistent(RevertOp(s, p, m).store, {}, {})
  {
    hide Consistent, RevertOp, RevertStrands;
    DoneRevertIsFinal(s, p, m);
    RevertAgrees(s, p, m + 2, {}, {});
  }

  lemma DoneRevertIsFinal(s: Store, p: RevertRequest, m: nat)
    requires RevertOp(s, p, m).answer.Done?
    ensures RevertOp(s, p, m + 2) == RevertOp(s, p, m) && !RevertStrands(s, p)
  {
    hide RevertStop, RevertBrain, CommitRevert, Revocable;
  }

  /** Between agreeing stores, a committed resolve of any action followed directly by its revert leaves what every
      principal is delivered exactly as it was, GBrain's own filter included. */
  lemma ResolveThenRevertIsInvisible(s: Store, q: ResolveRequest, n: nat, undo: RevertRequest, m: nat, who: Principal)
    requires Consistent(s, {}, {}) && Resolve(s, q, n).answer.Done? && undo.review == q.review
    requires RevertOp(Resolve(s, q, n).store, undo, m).answer.Done?
    ensures Delivered(RevertOp(Resolve(s, q, n).store, undo, m).store, who) == Delivered(s, who)
  {
    hide Resolve, RevertOp, VisibleRefs, Delivered, LedgerOk, KeysMatch, Agree, KeysSpent;
    var s1 := Resolve(s, q, n).store;
    DoneResolveAgrees(s, q, n);
    DoneRevertAgrees(s1, undo, m);
    ResolveThenRevertKeepsAuthorised(s, q, n, undo, m, who);
    AuthorizedIsDelivered(s, who);
    AuthorizedIsDelivered(RevertOp(s1, undo, m).store, who);
  }
}
