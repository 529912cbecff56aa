/** What a resolve answers and what it leaves in both stores, on the fields of candidates, rows, operations and facts
    (src/agent_memory_gateway/review_service.py). The text is the one the requester chose. */
module ResolveOutcomes {
  import opened Names
  import opened GBrain
  import opened Ledger
  import opened Lifecycle
  import opened LedgerInvariants
  import opened AllRuns
  import opened StoreAgreement
  import opened RunTheorems
  import opened Visibility
  import opened StoredTexts

  // ---- when a resolve is accepted

  /** The candidate is there, the requester's own, open, and at the revision the requester has seen. */
  predicate OpenFor(l: Ledger, q: ResolveRequest) {
    && q.review < |l.reviews| && l.reviews[q.review].origin in l.events
    && l.reviews[q.review].status == Open && l.reviews[q.review].revision == q.expected
    && var e := l.events[l.reviews[q.review].origin];
    e.tenant == q.who.tenant && e.user == q.who.user && e.workspace == q.who.workspace
  }

  /** The text the requester chose for the candidate. */
  function TextOf(l: Ledger, q: ResolveRequest): Payload
    requires OpenFor(l, q)
  {
    Chosen(q, l.events[l.reviews[q.review].origin].payload)
  }

  /** An active row of the text's own scope claims the same attribute of the same entity. */
  predicate Rivals(l: Ledger, q: ResolveRequest, row: Row)
    requires OpenFor(l, q)
  {
    var origin, text := l.reviews[q.review].origin, TextOf(l, q);
    && row.status == Active && row.binding == HomeOf(origin, l.events[origin], text)
    && text.keys.entity.Some? && text.keys.attribute.Some? && row.keys == text.keys
  }

  predicate OwnOp(o: Op, who: Principal) {
    o.tenant == who.tenant && o.user == who.user && o.workspace == who.workspace
  }

  /** The request's key names no operation of the requester. */
  predicate FirstUse(l: Ledger, q: ResolveRequest) {
    forall i | 0 <= i < |l.ops| :: l.ops[i].idem == q.idem ==> !OwnOp(l.ops[i], q.who)
  }

  /** What the action demands of the rows that claim the same attribute: none for a plain confirmation, and for a
      supersession one of them as the target, not pinned. */
  predicate TargetFits(l: Ledger, q: ResolveRequest)
    requires OpenFor(l, q)
  {
    && (q.action in {Confirm, ConfirmEdit} ==> forall r <- l.rows :: !Rivals(l, q, l.rows[r]))
    && (q.action == Supersession ==>
         q.target.Some? && q.target.value in l.rows && Rivals(l, q, l.rows[q.target.value]) && !l.rows[q.target.value].pinned)
  }

  lemma KeyLookup(l: Ledger, idem: string, who: Principal)
    requires LogsAlternate(l)
    ensures ExistingOp(l, idem, who).None? <==> forall i | 0 <= i < |l.ops| :: l.ops[i].idem == idem ==> !OwnOp(l.ops[i], who)
    ensures ExistingOp(l, idem, who).Some? ==>
      var i := ExistingOp(l, idem, who).value; i < |l.ops| && l.ops[i].idem == idem && OwnOp(l.ops[i], who)
    ensures idem in l.opByKey <==> exists i :: 0 <= i < |l.ops| && l.ops[i].idem == idem
    ensures forall i, j | 0 <= i < |l.ops| && 0 <= j < |l.ops| && l.ops[i].idem == idem && l.ops[j].idem == idem :: i == j
  {
    hide ReviewMatchesLog, LogsDense;
    forall i: nat | i < |l.ops| ensures l.ops[i].idem in l.opByKey && l.opByKey[l.ops[i].idem] == i { LoggedOp(l, i); }
    hide LogsAlternate;
    if idem in l.opByKey { KeyHasOp(l, idem); }
  }

  lemma KeyHasOp(l: Ledger, idem: string)
    requires LogsAlternate(l) && idem in l.opByKey
    ensures l.opByKey[idem] < |l.ops| && l.ops[l.opByKey[idem]].idem == idem
  {
  }

  lemma ConflictsAreRivals(l: Ledger, q: ResolveRequest)
    requires OpenFor(l, q)
    ensures forall r :: r in ConflictsFor(l, q) <==> r in l.rows && Rivals(l, q, l.rows[r])
  {
  }

  /** The checks a resolve makes before it touches either store let it go on exactly under these conditions. */
  lemma GoesOnExactly(l: Ledger, q: ResolveRequest)
    requires LogsAlternate(l)
    ensures ResolveStop(l, q).None? <==>
      q.action != Revert && FirstUse(l, q) && OpenFor(l, q) && Storable(q, TextOf(l, q)) && TargetFits(l, q)
  {
    KeyLookup(l, q.idem, q.who);
    hide LogsAlternate, ExistingOp, ConflictsFor, Rivals;
    if OpenFor(l, q) { ConflictsAreRivals(l, q); }
  }

  /** Nobody has used the key, and no row came from the candidate's event: where the stores agree, these are all that
      can still undo a resolve that goes on. */
  predicate NothingInTheWay(l: Ledger, q: ResolveRequest) {
    && (forall i | 0 <= i < |l.ops| :: l.ops[i].idem != q.idem)
    && (q.action in {Confirm, ConfirmEdit, RetainBoth, Supersession} && q.review < |l.reviews| ==>
         forall r <- l.rows :: l.rows[r].origin != l.reviews[q.review].origin)
  }

  /** Between agreeing stores a complete resolve is carried out exactly under these conditions. */
  lemma DoneExactly(s: Store, q: ResolveRequest)
    requires Consistent(s, {}, {})
    ensures Resolve(s, q, 3).answer.Done? <==>
      && q.action != Revert && OpenFor(s.ledger, q) && Storable(q, TextOf(s.ledger, q)) && TargetFits(s.ledger, q)
      && NothingInTheWay(s.ledger, q)
  {
    hide LedgerOk, KeysMatch, Agree, KeysSpent, Resolve, OpenFor, Storable, TargetFits;
    hide LogsAlternate, OriginsMatch, EffectsMatch, EventsMatch, TombstonesMatch, CrystalsFresh, RevisionsBounded;
    var l := s.ledger;
    LedgerParts(l);
    GoesOnExactly(l, q);
    KeyLookup(l, q.idem, q.who);
    if ResolveStop(l, q).None? {
      RowLookup(l, l.reviews[q.review].origin);
      if q.action.CreatesFact() { ConfirmDoneExactly(s, q); } else { CloseDoneExactly(s, q); }
    } else {
      StoppedIsNotDone(s, q);
    }
  }

  lemma StoppedIsNotDone(s: Store, q: ResolveRequest)
    requires ResolveStop(s.ledger, q).Some?
    ensures !Resolve(s, q, 3).answer.Done?
  {
    hide ResolveStop;
  }

  lemma RowLookup(l: Ledger, k: EventKey)
    requires OriginsMatch(l)
    ensures k in l.rowByOrigin <==> exists r :: r in l.rows && l.rows[r].origin == k
  {
    if k in l.rowByOrigin { assert l.rows[l.rowByOrigin[k]].origin == k; }
  }

  lemma CloseDoneExactly(s: Store, q: ResolveRequest)
    requires ResolveStop(s.ledger, q).None? && !q.action.CreatesFact()
    ensures Resolve(s, q, 3).answer.Done? <==> q.idem !in s.ledger.opByKey
  {
    hide ResolveStop, CommitClose;
  }

  lemma ConfirmDoneExactly(s: Store, q: ResolveRequest)
    requires Consistent(s, {}, {}) && ResolveStop(s.ledger, q).None? && q.action.CreatesFact()
    ensures Resolve(s, q, 3).answer.Done? <==> q.idem !in s.ledger.opByKey && s.ledger.reviews[q.review].origin !in s.ledger.rowByOrigin
  {
    hide LedgerOk, KeysMatch, Agree, KeysSpent, ResolveStop, ConfirmBrain, CommitConfirm, ConfirmRefusal, Resolve, Upsert;
    hide LogsAlternate, OriginsMatch, EffectsMatch, EventsMatch, TombstonesMatch, CrystalsFresh, RevisionsBounded;
    var l, b := s.ledger, s.brain;
    LedgerParts(l);
    CreateKeyIsFresh(l, b, q);
    if q.action == Supersession {
      SpentIsTaken(l, b, q);
      if SupersedeKey(q.review, q.idem) !in b.operations { SupersessionGoesThrough(l, b, q, 3, {}); }
    } else {
      CreatedIsFresh(l, b, q);
      PlainConfirmBrain(l, b, q);
    }
    ConfirmAnswer(s, q);
    RefusalRead(l, q, ConfirmBrain(l, b, q, 3).reply);
  }

  lemma SpentIsTaken(l: Ledger, b: Brain, q: ResolveRequest)
    requires KeysSpent(l, b, {})
    ensures SupersedeKey(q.review, q.idem) in b.operations ==> q.idem in l.opByKey
  {
  }

  lemma PlainConfirmBrain(l: Ledger, b: Brain, q: ResolveRequest)
    requires q.review < |l.reviews| && l.reviews[q.review].origin in l.events && q.action != Supersession
    ensures ConfirmBrain(l, b, q, 3) == Upsert(b, CreateKey(q.review, q.idem), q.who.tenant, ResolvedPayload(l, q).content)
  {
  }

  lemma ConfirmAnswer(s: Store, q: ResolveRequest)
    requires ResolveStop(s.ledger, q).None? && q.action.CreatesFact()
    ensures var step := ConfirmBrain(s.ledger, s.brain, q, 3);
      Resolve(s, q, 3).answer.Done? <==> step.reply.Ok? && ConfirmRefusal(s.ledger, q, step.reply.ref.id).None?
  {
    hide ResolveStop, ConfirmBrain, ConfirmRefusal, CommitConfirm;
  }

  lemma RefusalRead(l: Ledger, q: ResolveRequest, reply: Reply)
    requires ResolveStop(l, q).None? && q.action.CreatesFact() && (reply.Ok? ==> reply.ref.FactRef?)
    ensures reply.Ok? && reply.ref.id !in l.rows ==>
      (ConfirmRefusal(l, q, reply.ref.id).None? <==> q.idem !in l.opByKey && l.reviews[q.review].origin !in l.rowByOrigin)
    ensures reply.Ok? && ConfirmRefusal(l, q, reply.ref.id).None? ==> q.idem !in l.opByKey
  {
    if q.action == Supersession { TargetOfResolve(l, q); TargetIsOwned(l, q); }
    hide ResolveStop;
  }

  lemma TargetIsOwned(l: Ledger, q: ResolveRequest)
    requires ResolveStop(l, q).None? && q.action == Supersession
    ensures var e := l.events[l.reviews[q.review].origin]; OwnedRow(l.rows, q.target.value, e.tenant, e.user)
  {
    TargetOfResolve(l, q);
  }

  // ---- what a resolve that is not carried out answers

  /** A resolve that is not carried out leaves the ledger as it was. */
  lemma RefusalKeepsLedger(s: Store, q: ResolveRequest, n: nat)
    requires !Resolve(s, q, n).answer.Done?
    ensures Resolve(s, q, n).store.ledger == s.ledger
  {
    hide ResolveStop, ConfirmBrain, ConfirmRefusal, CommitConfirm, CommitClose;
  }

  /** A repeated request of the same owner is answered with the operation it led to. */
  lemma DuplicateExactly(s: Store, q: ResolveRequest, i: nat)
    requires StoreOk(s) && q.action != Revert
    ensures Resolve(s, q, 3).answer == Duplicate(i) <==> i < |s.ledger.ops| && s.ledger.ops[i].idem == q.idem && OwnOp(s.ledger.ops[i], q.who)
  {
    hide LogsAlternate, OriginsMatch, EffectsMatch, EventsMatch, TombstonesMatch, CrystalsFresh, RevisionsBounded, KeysMatch;
    hide CandidateProblem, ConflictsFor, ConfirmBrain, ConfirmRefusal, CommitConfirm, CommitClose;
    LedgerParts(s.ledger);
    KeyLookup(s.ledger, q.idem, q.who);
    hide ExistingOp;
  }

  /** A plain confirmation answers with the conflicting rows exactly when there are some, and lists all of them. */
  lemma ConflictsExactly(s: Store, q: ResolveRequest)
    requires StoreOk(s)
    ensures Resolve(s, q, 3).answer.Conflicting? <==>
      && q.action in {Confirm, ConfirmEdit} && FirstUse(s.ledger, q) && OpenFor(s.ledger, q) && Storable(q, TextOf(s.ledger, q))
      && exists r <- s.ledger.rows :: Rivals(s.ledger, q, s.ledger.rows[r])
    ensures Resolve(s, q, 3).answer.Conflicting? ==>
      forall r :: r in Resolve(s, q, 3).answer.refs <==> r in s.ledger.rows && Rivals(s.ledger, q, s.ledger.rows[r])
  {
    hide LogsAlternate, OriginsMatch, EffectsMatch, EventsMatch, TombstonesMatch, CrystalsFresh, RevisionsBounded, KeysMatch, Rivals;
    hide ConfirmBrain, ConfirmRefusal, CommitConfirm, CommitClose;
    LedgerParts(s.ledger);
    KeyLookup(s.ledger, q.idem, q.who);
    hide ExistingOp, ConflictsFor;
    if OpenFor(s.ledger, q) { ConflictsAreRivals(s.ledger, q); }
  }

  // ---- what a confirmation stores

  /** One operation more, under the requester's key and owner. */
  predicate LogsOp(l: Ledger, l': Ledger, q: ResolveRequest, ref: Option<FactId>, target: Option<FactId>) {
    && (forall i | 0 <= i < |l.ops| :: l.ops[i].idem != q.idem)
    && l'.ops == l.ops + [Op(q.review, q.idem, q.who.tenant, q.who.user, q.who.workspace, q.action, q.expected, ref, target, None)]
  }

  /** The candidate moves on by one revision; the others stay. */
  predicate ClosesCandidate(l: Ledger, l': Ledger, q: ResolveRequest, status: ReviewStatus)
    requires OpenFor(l, q)
  {
    l'.reviews == l.reviews[q.review := Review(l.reviews[q.review].origin, status, q.expected + 1, Some(|l.ops|))]
  }

  /** The fact the confirmation names holds the chosen text under the requester's tenant; only a fact that an earlier
      attempt under the same key left behind keeps the text that attempt chose. */
  predicate StoresText(b: Brain, b': Brain, q: ResolveRequest, ref: FactId, text: Payload) {
    var key := CreateKey(q.review, q.idem);
    && ref < |b'.facts| && b'.facts[ref].source == q.who.tenant && b'.facts[ref].session == key
    && (key !in b.bindings ==> |b'.facts| == |b.facts| + 1 && ref == |b.facts| && b'.facts[ref].content == text.content)
    && (key in b.bindings ==> |b'.facts| == |b.facts| && ref == b.bindings[key] && b'.facts[ref].content == b.facts[ref].content)
    && forall f | 0 <= f < |b.facts| && (q.action != Supersession || q.target != Some(f)) :: b'.facts[f] == b.facts[f]
  }

  /** The new row files the chosen text; a superseded target points to it and every other row stays. */
  predicate FilesRow(l: Ledger, l': Ledger, q: ResolveRequest, ref: FactId)
    requires OpenFor(l, q)
  {
    var origin, text, rev := l.reviews[q.review].origin, TextOf(l, q), l.revision + 1;
    && ref !in l.rows && l'.rows.Keys == l.rows.Keys + {ref} && l'.revision == rev
    && l'.rows[ref] == Row(HomeOf(origin, l.events[origin], text), origin, text.keys, text.instruction, false, Active, None, rev)
    && (forall r <- l.rows ::
         l'.rows[r] == if q.action == Supersession && q.target == Some(r)
                       then l.rows[r].(status := Superseded, supersededBy := Some(ref), updated := rev) else l.rows[r])
    && TargetTombstoned(l, l', q) && OnlyStale(l.crystals, l'.crystals, {l'.rows[ref].binding})
  }

  /** A superseded target has a tombstone in force; the other tombstones stay. */
  predicate TargetTombstoned(l: Ledger, l': Ledger, q: ResolveRequest) {
    && (forall r <- l.tombstones :: q.action != Supersession || q.target != Some(r) ==> r in l'.tombstones && l'.tombstones[r] == l.tombstones[r])
    && (q.action == Supersession && q.target.Some? ==>
         && q.target.value in l'.tombstones && l'.tombstones[q.target.value].deleted == l.revision + 1
         && l'.tombstones[q.target.value].revoked.None?)
  }

  /** The candidate's event, and the records it was captured from, lead to the new fact; receipts stay. */
  predicate LeadsTo(l: Ledger, l': Ledger, origin: EventKey, ref: FactId)
    requires origin in l.events
  {
    && l'.receipts == l.receipts
    && l'.events == l.events[origin := l.events[origin].(backendRef := Some(ref), result := Some(CandidateConfirmed), revision := Some(l.revision + 1))]
    && l'.externals.Keys == l.externals.Keys
    && forall x <- l.externals ::
         l'.externals[x] == if l.externals[x].origin == origin then External(origin, Some(ref)) else l.externals[x]
  }

  lemma DoneConfirm(s: Store, q: ResolveRequest) returns (ref: FactId)
    requires StoreOk(s) && q.action.CreatesFact() && Resolve(s, q, 3).answer.Done?
    ensures ResolveStop(s.ledger, q).None? && ConfirmBrain(s.ledger, s.brain, q, 3).reply == Ok(FactRef(ref))
    ensures ConfirmReady(s.ledger, q.review, q.idem, q.action, ResolvedPayload(s.ledger, q), ref, ConfirmTarget(q))
    ensures Resolve(s, q, 3).store == Store(CommitConfirm(s.ledger, q.review, q.idem, q.action, ResolvedPayload(s.ledger, q), ref, ConfirmTarget(q)),
                                            ConfirmBrain(s.ledger, s.brain, q, 3).brain)
    ensures Resolve(s, q, 3).answer == Done(|s.ledger.ops|)
  {
    hide LedgerOk, KeysMatch, ConfirmReady, CommitConfirm, ConfirmBrain, ResolveStop, ConfirmRefusal;
    hide LogsAlternate, OriginsMatch, EffectsMatch, EventsMatch, TombstonesMatch, CrystalsFresh, RevisionsBounded;
    LedgerParts(s.ledger);
    var step := ConfirmBrain(s.ledger, s.brain, q, 3);
    ConfirmBrainKeepsKeys(s.ledger, s.brain, q, 3);
    ref := step.reply.ref.id;
    ConfirmIsReady(s.ledger, step.brain, q, ref);
  }

  lemma ConfirmStoresText(l: Ledger, b: Brain, q: ResolveRequest, ref: FactId)
    requires KeysMatch(l, b) && ResolveStop(l, q).None? && q.action.CreatesFact() && OpenFor(l, q)
    requires ConfirmBrain(l, b, q, 3).reply == Ok(FactRef(ref))
    ensures StoresText(b, ConfirmBrain(l, b, q, 3).brain, q, ref, TextOf(l, q))
  {
    hide ResolveStop, KeyPlaced;
    BoundUnderKey(l, b, q);
  }

  lemma BoundUnderKey(l: Ledger, b: Brain, q: ResolveRequest)
    requires KeysMatch(l, b) && OpenFor(l, q)
    ensures var key := CreateKey(q.review, q.idem);
      key in b.bindings ==> b.bindings[key] < |b.facts| && b.facts[b.bindings[key]].session == key && b.facts[b.bindings[key]].source == q.who.tenant
  {
    if CreateKey(q.review, q.idem) in b.bindings { assert KeyPlaced(l, b, CreateKey(q.review, q.idem)); }
  }

  lemma ConfirmFilesRow(l: Ledger, q: ResolveRequest, ref: FactId)
    requires OpenFor(l, q) && ConfirmReady(l, q.review, q.idem, q.action, ResolvedPayload(l, q), ref, ConfirmTarget(q))
    requires q.action == Supersession ==> q.target.Some? && q.target.value in l.rows && l.rows[q.target.value].binding.tenant == q.who.tenant
                                          && l.rows[q.target.value].binding.user == q.who.user
    ensures FilesRow(l, CommitConfirm(l, q.review, q.idem, q.action, ResolvedPayload(l, q), ref, ConfirmTarget(q)), q, ref)
  {
    ConfirmMarks(l, q, ref);
    hide Redirected, ConfirmedTombstones, MarkStale, TargetTombstoned, OnlyStale;
  }

  lemma ConfirmMarks(l: Ledger, q: ResolveRequest, ref: FactId)
    requires OpenFor(l, q) && ConfirmReady(l, q.review, q.idem, q.action, ResolvedPayload(l, q), ref, ConfirmTarget(q))
    ensures var l', origin := CommitConfirm(l, q.review, q.idem, q.action, ResolvedPayload(l, q), ref, ConfirmTarget(q)), l.reviews[q.review].origin;
      TargetTombstoned(l, l', q) && OnlyStale(l.crystals, l'.crystals, {HomeOf(origin, l.events[origin], TextOf(l, q))})
  {
    hide Redirected, ConfirmedRows;
  }

  lemma ConfirmLeadsTo(l: Ledger, q: ResolveRequest, ref: FactId)
    requires LogsAlternate(l) && OpenFor(l, q) && ConfirmReady(l, q.review, q.idem, q.action, ResolvedPayload(l, q), ref, ConfirmTarget(q))
    ensures var l' := CommitConfirm(l, q.review, q.idem, q.action, ResolvedPayload(l, q), ref, ConfirmTarget(q));
      && LeadsTo(l, l', l.reviews[q.review].origin, ref) && ClosesCandidate(l, l', q, Confirmed)
      && LogsOp(l, l', q, Some(ref), ConfirmTarget(q))
  {
    KeyLookup(l, q.idem, q.who);
    hide LogsAlternate, ConfirmedRows, ConfirmedTombstones, MarkStale, BindingOf;
  }

  /** A confirmation that is carried out stores the text the requester chose, and files, logs and settles everything
      that goes with it from that text and from the requester. The text is the edited one exactly where the request
      edits; it is not sensitive, and approved if it reads like an instruction. */
  lemma ConfirmationStores(s: Store, q: ResolveRequest)
    requires StoreOk(s) && q.action in {Confirm, ConfirmEdit, RetainBoth, Supersession} && Resolve(s, q, 3).answer.Done?
    ensures OpenFor(s.ledger, q) && Storable(q, TextOf(s.ledger, q)) && TargetFits(s.ledger, q)
    ensures var l, l', b' := s.ledger, Resolve(s, q, 3).store.ledger, Resolve(s, q, 3).store.brain;
      && Resolve(s, q, 3).answer == Done(|l.ops|) && |l'.ops| == |l.ops| + 1 && l'.ops[|l.ops|].ref.Some?
      && var ref := l'.ops[|l.ops|].ref.value;
      && LogsOp(l, l', q, Some(ref), if q.action == Supersession then q.target else None)
      && StoresText(s.brain, b', q, ref, TextOf(l, q)) && FilesRow(l, l', q, ref)
      && LeadsTo(l, l', l.reviews[q.review].origin, ref) && ClosesCandidate(l, l', q, Confirmed)
  {
    hide LedgerOk, KeysMatch, ConfirmReady, CommitConfirm, ConfirmBrain, ResolveStop, Resolve, StoresText, FilesRow, LeadsTo, ClosesCandidate, Rivals,
      OpenFor, Storable;
    hide LogsAlternate, OriginsMatch, EffectsMatch, EventsMatch, TombstonesMatch, CrystalsFresh, RevisionsBounded;
    var l := s.ledger;
    LedgerParts(l);
    var ref := DoneConfirm(s, q);
    GoesOnExactly(l, q);
    ConfirmStoresText(l, s.brain, q, ref);
    if q.action == Supersession { TargetOwner(l, q); }
    ConfirmFilesRow(l, q, ref);
    ConfirmLeadsTo(l, q, ref);
  }

  /** The text is the chosen one exactly when no earlier attempt under the same key has left another one in GBrain. */
  lemma ChosenTextExactly(s: Store, q: ResolveRequest)
    requires StoreOk(s) && q.action in {Confirm, ConfirmEdit, RetainBoth, Supersession} && Resolve(s, q, 3).answer.Done?
    ensures OpenFor(s.ledger, q)
    ensures var b, s', key := s.brain, Resolve(s, q, 3).store, CreateKey(q.review, q.idem);
      && |s'.ledger.ops| == |s.ledger.ops| + 1 && s'.ledger.ops[|s.ledger.ops|].ref.Some?
      && var ref := s'.ledger.ops[|s.ledger.ops|].ref.value;
      && ref < |s'.brain.facts|
      && (s'.brain.facts[ref].content == TextOf(s.ledger, q).content <==>
            (key in b.bindings && b.bindings[key] < |b.facts| ==> b.facts[b.bindings[key]].content == TextOf(s.ledger, q).content))
  {
    hide Resolve, LedgerOk, FilesRow, LeadsTo, ClosesCandidate, TargetFits, KeyPlaced;
    ConfirmationStores(s, q);
  }

  /** So an edit that crashed after its GBrain commit and is retried under the same key with another text keeps the first
      text, while the row takes the keys and the namespace of the second. */
  lemma RetriedEditKeepsFirstText(s: Store, q: ResolveRequest, r: ResolveRequest)
    requires StoreOk(s) && q.action == ConfirmEdit && r.action == ConfirmEdit && r.review == q.review && r.idem == q.idem
    requires CreateKey(q.review, q.idem) !in s.brain.bindings && Resolve(s, q, 1).answer == Crashed
    requires Resolve(Resolve(s, q, 1).store, r, 3).answer.Done?
    ensures var s2 := Resolve(Resolve(s, q, 1).store, r, 3).store;
      && |s2.ledger.ops| == |s.ledger.ops| + 1 && s2.ledger.ops[|s.ledger.ops|].ref.Some?
      && var ref := s2.ledger.ops[|s.ledger.ops|].ref.value;
      && ref < |s2.brain.facts| && s2.brain.facts[ref].content == q.edited.content
      && ref in s2.ledger.rows && s2.ledger.rows[ref].keys == r.edited.keys
  {
    CrashedEdit(s, q);
    ResolveKeepsStore(s, q, 1);
    hide Resolve, StoreOk, LeadsTo, ClosesCandidate, TargetFits, Rivals;
    ConfirmationStores(Resolve(s, q, 1).store, r);
  }

  lemma CrashedEdit(s: Store, q: ResolveRequest)
    requires q.action == ConfirmEdit && CreateKey(q.review, q.idem) !in s.brain.bindings && Resolve(s, q, 1).answer == Crashed
    ensures var s1, key := Resolve(s, q, 1).store, CreateKey(q.review, q.idem);
      && s1.ledger == s.ledger && key in s1.brain.bindings && s1.brain.bindings[key] == |s.brain.facts| < |s1.brain.facts|
      && s1.brain.facts[|s.brain.facts|].content == q.edited.content
  {
    hide ResolveStop, CommitConfirm, ConfirmRefusal;
  }

  lemma TargetOwner(l: Ledger, q: ResolveRequest)
    requires OpenFor(l, q) && TargetFits(l, q) && q.action == Supersession
    ensures l.rows[q.target.value].binding.tenant == q.who.tenant && l.rows[q.target.value].binding.user == q.who.user
  {
  }

  /** Between agreeing stores, a supersession that is carried out also links the two facts in GBrain: the new one is in
      force and the target, live until then, points to it. */
  lemma SupersessionLinks(s: Store, q: ResolveRequest)
    requires Consistent(s, {}, {}) && q.action == Supersession && Resolve(s, q, 3).answer.Done?
    ensures var b, s' := s.brain, Resolve(s, q, 3).store;
      && q.target.Some? && q.target.value < |b.facts| && !b.facts[q.target.value].expired && b.facts[q.target.value].supersededBy.None?
      && |s'.ledger.ops| == |s.ledger.ops| + 1 && s'.ledger.ops[|s.ledger.ops|].ref.Some?
      && var ref := s'.ledger.ops[|s.ledger.ops|].ref.value;
      && ref < |s'.brain.facts| && !s'.brain.facts[ref].expired && s'.brain.facts[ref].supersededBy.None?
      && q.target.value < |s'.brain.facts| && s'.brain.facts[q.target.value] == b.facts[q.target.value].(supersededBy := Some(ref))
  {
    hide LedgerOk, KeysMatch, Agree, KeysSpent, ConfirmBrain, ResolveStop, Resolve, ConfirmReady;
    hide LogsAlternate, OriginsMatch, EffectsMatch, EventsMatch, TombstonesMatch, CrystalsFresh, RevisionsBounded;
    var l, b := s.ledger, s.brain;
    LedgerParts(l);
    var ref := DoneConfirm(s, q);
    CreateKeyIsFresh(l, b, q);
    ReadyKeyIsFree(l, q, ResolvedPayload(l, q), ref);
    SpentIsTaken(l, b, q);
    TargetIsLive(l, b, q, {});
    SupersessionGoesThrough(l, b, q, 3, {});
  }

  lemma ReadyKeyIsFree(l: Ledger, q: ResolveRequest, payload: Payload, ref: FactId)
    requires ConfirmReady(l, q.review, q.idem, q.action, payload, ref, ConfirmTarget(q))
    ensures q.idem !in l.opByKey
  {
  }

  /** Archiving or rejecting closes the candidate and logs it; no fact, row, event or receipt changes. */
  lemma ClosingOnlyLogs(s: Store, q: ResolveRequest)
    requires StoreOk(s) && q.action in {Archive, Reject} && Resolve(s, q, 3).answer.Done?
    ensures OpenFor(s.ledger, q)
    ensures var l, l' := s.ledger, Resolve(s, q, 3).store.ledger;
      && Resolve(s, q, 3).store.brain == s.brain && Resolve(s, q, 3).answer == Done(|l.ops|)
      && LogsOp(l, l', q, None, None) && ClosesCandidate(l, l', q, if q.action == Archive then ClosedArchived else ClosedRejected)
      && l'.rows == l.rows && l'.events == l.events && l'.receipts == l.receipts && l'.tombstones == l.tombstones
      && l'.crystals == l.crystals && l'.externals == l.externals
  {
    hide LogsAlternate, OriginsMatch, EffectsMatch, EventsMatch, TombstonesMatch, CrystalsFresh, RevisionsBounded, KeysMatch, ResolveStop;
    LedgerParts(s.ledger);
    GoesOnExactly(s.ledger, q);
    KeyLookup(s.ledger, q.idem, q.who);
    hide TargetFits, FirstUse;
  }

  // ---- why a resolve is refused

  /** The candidate is there but belongs to somebody else. */
  predicate ForeignCandidate(l: Ledger, review: nat, who: Principal) {
    && review < |l.reviews| && l.reviews[review].origin in l.events
    && var e := l.events[l.reviews[review].origin];
    e.tenant != who.tenant || e.user != who.user || e.workspace != who.workspace
  }

  predicate OwnCandidate(l: Ledger, review: nat, who: Principal) {
    review < |l.reviews| && l.reviews[review].origin in l.events && !ForeignCandidate(l, review, who)
  }

  /** Each refusal names the first thing that is wrong: a stranger is told only that the candidate is not theirs, and an
      owner who is out of date learns that before anything else about the candidate. */
  lemma RefusalsNameTheirReason(s: Store, q: ResolveRequest)
    requires StoreOk(s) && q.action != Revert && FirstUse(s.ledger, q)
    ensures var l, answer := s.ledger, Resolve(s, q, 3).answer;
      && (q.review >= |l.reviews| ==> answer == Refused(ReviewNotFound))
      && (ForeignCandidate(l, q.review, q.who) ==> answer == Refused(Forbidden))
      && (OwnCandidate(l, q.review, q.who) && l.reviews[q.review].revision != q.expected ==> answer == Refused(RevisionConflict))
      && (OwnCandidate(l, q.review, q.who) && l.reviews[q.review].revision == q.expected && l.reviews[q.review].status != Open ==>
           answer == Refused(NotPending))
      && (OpenFor(l, q) ==> var text := TextOf(l, q);
           && (text.sensitive ==> answer == Refused(SensitiveContent))
           && (!text.sensitive && text.instruction && !q.approved ==> answer == Refused(ApprovalRequired))
           && (Storable(q, text) && q.action == Supersession ==>
                && (q.target.None? ==> answer == Refused(TargetRequired))
                && (q.target.Some? && !(q.target.value in l.rows && Rivals(l, q, l.rows[q.target.value])) ==> answer == Refused(TargetInvalid))
                && (q.target.Some? && q.target.value in l.rows && Rivals(l, q, l.rows[q.target.value]) && l.rows[q.target.value].pinned ==>
                     answer == Refused(TargetPinned))))
  {
    hide LogsAlternate, OriginsMatch, EffectsMatch, EventsMatch, TombstonesMatch, CrystalsFresh, RevisionsBounded, KeysMatch;
    hide Rivals, ConfirmBrain, ConfirmRefusal, CommitConfirm, CommitClose;
    LedgerParts(s.ledger);
    KeyLookup(s.ledger, q.idem, q.who);
    hide ExistingOp, ConflictsFor;
    if OpenFor(s.ledger, q) { ConflictsAreRivals(s.ledger, q); }
  }
}
