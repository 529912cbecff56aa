/** What every run keeps inside the ledger, whatever crashes: tombstones, receipts, the review log and
    crystals. None of it needs the two stores to agree. */
module LedgerInvariants {
  import opened Names
  import opened Ledger

  // ---- the invariants, one per table group

  ghost predicate RevisionsBounded(l: Ledger) {
    && (forall r <- l.rows :: l.rows[r].updated <= l.revision)
    && (forall r <- l.tombstones :: l.tombstones[r].deleted <= l.revision)
    && (forall b <- l.crystals :: l.crystals[b].generated <= l.revision)
  }

  /** A row is not active exactly when it has an unrevoked tombstone, dated by the row's last revision. */
  ghost predicate TombstonesMatch(rows: map<FactId, Row>, tombstones: map<FactId, Tombstone>) {
    && (forall r <- tombstones ::
      && OwnedRow(rows, r, tombstones[r].tenant, tombstones[r].user)
      && (tombstones[r].revoked.Some? ==> tombstones[r].revoked.value > tombstones[r].deleted))
    && (forall r <- rows ::
      && (rows[r].status != Active <==> r in tombstones && tombstones[r].revoked.None?)
      && (rows[r].status != Active ==> tombstones[r].deleted == rows[r].updated))
  }

  /** A ready crystal lists exactly the current sources of its scope, none newer than the crystal. */
  ghost predicate CrystalsFresh(rows: map<FactId, Row>, crystals: map<ScopeBinding, Crystal>) {
    forall b <- crystals | crystals[b].ready ::
      && crystals[b].refs == Sources(rows, b)
      && forall r <- rows | rows[r].binding == b && rows[r].status == Active && !rows[r].instruction ::
           rows[r].updated <= crystals[b].generated
  }

  ghost predicate EventsMatch(l: Ledger) {
    && (forall k <- l.receipts :: k in l.events)
    && (forall k <- l.events ::
      && l.events[k].status != Rejected
      && (l.events[k].status == Applied <==> k in l.receipts)
      && (l.events[k].backendRef.Some? ==> l.events[k].backendRef.value in l.rows && l.events[k].status == Applied)
      && (l.events[k].result == Some(CandidateCreated) ==> l.events[k].backendRef.None?)
      && (l.events[k].result == Some(CandidateConfirmed) ==> k in l.rowByOrigin))
    && (forall v | 0 <= v < |l.reviews| :: Reviewed(l.events, l.reviews[v].origin))
    && (forall x <- l.externals :: l.externals[x].backendRef.Some? ==> l.externals[x].backendRef.value in l.rows)
  }

  /** An event under review was applied as a candidate, and possibly confirmed since. */
  predicate Reviewed(events: map<EventKey, Event>, k: EventKey) {
    && k in events && events[k].status == Applied
    && (events[k].result == Some(CandidateCreated) || events[k].result == Some(CandidateConfirmed))
  }

  /** The unique index on the source event, and the owner a row takes from its event. */
  ghost predicate OriginsMatch(l: Ledger) {
    && (forall k <- l.rowByOrigin :: l.rowByOrigin[k] in l.rows && l.rows[l.rowByOrigin[k]].origin == k)
    && (forall r <- l.rows ::
      var k := l.rows[r].origin;
      && k in l.rowByOrigin && l.rowByOrigin[k] == r
      && k in l.events && l.events[k].status == Applied
      && l.rows[r].binding.tenant == l.events[k].tenant && l.rows[r].binding.user == l.events[k].user)
  }

  /** Positions in a candidate's log: its operations carry expected revisions 1, 2, ...; odd ones resolve and
      even ones revert the one just before. */
  ghost predicate LogsAlternate(l: Ledger) {
    && (forall k <- l.opByKey :: l.opByKey[k] < |l.ops| && l.ops[l.opByKey[k]].idem == k)
    && (forall v | 0 <= v < |l.reviews| :: ReviewMatchesLog(l, v))
    && (forall i | 0 <= i < |l.ops| :: OpInLog(l, i))
    && (forall i, j | 0 <= i < j < |l.ops| && l.ops[i].review == l.ops[j].review :: l.ops[i].expected < l.ops[j].expected)
    && LogsDense(l)
  }

  ghost predicate LogsDense(l: Ledger) {
    forall v, p: nat | 0 <= v < |l.reviews| && 1 <= p < l.reviews[v].revision :: LogHas(l.ops, v, p)
  }

  ghost predicate LogHas(ops: seq<Op>, v: nat, p: nat) {
    exists i | 0 <= i < |ops| :: ops[i].review == v && ops[i].expected == p
  }

  ghost predicate ReviewMatchesLog(l: Ledger, v: nat)
    requires v < |l.reviews|
  {
    var c := l.reviews[v];
    && c.origin in l.events && l.events[c.origin].status == Applied
    && c.revision >= 1
    && (c.status == Open <==> c.revision % 2 == 1)
    && (c.lastOp.None? <==> c.revision == 1)
    && (c.lastOp.Some? ==> var i := c.lastOp.value;
          i < |l.ops| && l.ops[i].review == v && l.ops[i].expected == c.revision - 1)
  }

  ghost predicate OpInLog(l: Ledger, i: nat)
    requires i < |l.ops|
  {
    var o := l.ops[i];
    && o.review < |l.reviews| && OwnedByReview(l, o)
    && 1 <= o.expected < l.reviews[o.review].revision
    && o.idem in l.opByKey && l.opByKey[o.idem] == i
    && (o.action == Revert <==> o.expected % 2 == 0)
    && (o.action != Revert ==> o.compensates.None?)
    && (o.action == Revert ==>
          && o.compensates.Some? && o.compensates.value < i
          && l.ops[o.compensates.value].review == o.review && l.ops[o.compensates.value].expected == o.expected - 1)
  }

  /** An operation carries the owner of its candidate's event. */
  ghost predicate OwnedByReview(l: Ledger, o: Op)
    requires o.review < |l.reviews|
  {
    var k := l.reviews[o.review].origin;
    k in l.events && o.tenant == l.events[k].tenant && o.user == l.events[k].user && o.workspace == l.events[k].workspace
  }

  predicate SameOwner(e: Event, e': Event) {
    && e'.tenant == e.tenant && e'.user == e.user && e'.workspace == e.workspace
    && (e.status == Applied ==> e'.status == Applied)
  }

  /** What a confirmation recorded stays readable from the rows it made and superseded. */
  ghost predicate EffectsMatch(l: Ledger) {
    && (forall i | 0 <= i < |l.ops| && l.ops[i].action != Revert :: EffectRecorded(l, l.ops[i]))
    && (forall i, j | 0 <= i < j < |l.ops| && l.ops[i].action.CreatesFact() && l.ops[j].action.CreatesFact() ::
          l.ops[i].ref != l.ops[j].ref)
  }

  ghost predicate EffectRecorded(l: Ledger, o: Op) {
    && o.review < |l.reviews| && l.reviews[o.review].origin in l.events
    && (o.action.CreatesFact() <==> o.ref.Some?)
    && (o.action == Supersession <==> o.target.Some?)
    && (o.ref.Some? ==> o.ref.value in l.rows && l.rows[o.ref.value].origin == l.reviews[o.review].origin)
    && (o.target.Some? ==>
          && o.target.value in l.rows && o.target.value != o.ref.value
          && l.rows[o.target.value].binding == l.rows[o.ref.value].binding)
    && (o.target.Some? && o.expected == l.reviews[o.review].revision - 1 ==>
          l.rows[o.target.value].status != Active && l.rows[o.target.value].supersededBy == o.ref)
  }

  ghost predicate LedgerOk(l: Ledger) {
    && RevisionsBounded(l) && TombstonesMatch(l.rows, l.tombstones) && CrystalsFresh(l.rows, l.crystals)
    && EventsMatch(l) && OriginsMatch(l) && LogsAlternate(l) && EffectsMatch(l)
  }

  /** What the guards of resolve and the freshness of a new reference give its ledger transaction. */
  ghost predicate ConfirmReady(l: Ledger, review: nat, idem: string, action: Action, payload: Payload, ref: FactId,
                               target: Option<FactId>)
  {
    && review < |l.reviews| && l.reviews[review].origin in l.events && l.reviews[review].status == Open
    && l.events[l.reviews[review].origin].status == Applied
    && idem !in l.opByKey && action.CreatesFact() && (action == Supersession <==> target.Some?)
    && ref !in l.rows && l.reviews[review].origin !in l.rowByOrigin
    && (target.Some? ==>
          && target.value in l.rows && l.rows[target.value].status == Active
          && l.rows[target.value].binding == BindingOf(l.reviews[review].origin, l.events[l.reviews[review].origin], payload))
  }

  ghost predicate RevertReady(l: Ledger, review: nat, idem: string, opId: nat) {
    && review < |l.reviews| && l.reviews[review].origin in l.events && opId < |l.ops|
    && idem !in l.opByKey && l.reviews[review].lastOp == Some(opId) && l.ops[opId].action != Revert
  }

  // ---- crystals: only scopes marked stale may change their sources

  lemma CrystalsKept(rows: map<FactId, Row>, rows': map<FactId, Row>, crystals: map<ScopeBinding, Crystal>,
                     crystals': map<ScopeBinding, Crystal>, touched: set<ScopeBinding>)
    requires CrystalsFresh(rows, crystals)
    requires forall r <- rows :: rows[r].binding !in touched ==> r in rows' && rows'[r] == rows[r]
    requires forall r <- rows' :: rows'[r].binding !in touched ==> r in rows && rows'[r] == rows[r]
    requires forall b <- crystals' | crystals'[b].ready :: b !in touched && b in crystals && crystals[b] == crystals'[b]
    ensures CrystalsFresh(rows', crystals')
  {
    forall b <- crystals' | crystals'[b].ready
      ensures crystals'[b].refs == Sources(rows', b)
    {
      assert Sources(rows', b) == Sources(rows, b);
    }
  }

  // ---- the log: appending one operation of a candidate

  /** One operation is appended to the log of a candidate, whose revision moves on. */
  ghost predicate Appends(l: Ledger, l': Ledger, o: Op) {
    && o.review < |l.reviews| && o.expected == l.reviews[o.review].revision && o.idem !in l.opByKey
    && (o.action == Revert <==> l.reviews[o.review].status != Open)
    && OwnedByReview(l, o)
    && o.compensates == (if o.action == Revert then l.reviews[o.review].lastOp else None)
    && l'.ops == l.ops + [o] && l'.opByKey == l.opByKey[o.idem := |l.ops|]
    && |l'.reviews| == |l.reviews|
    && (forall v | 0 <= v < |l.reviews| && v != o.review :: l'.reviews[v] == l.reviews[v])
    && (var c, c' := l.reviews[o.review], l'.reviews[o.review];
        c'.origin == c.origin && c'.revision == c.revision + 1 && c'.lastOp == Some(|l.ops|)
        && (c'.status == Open <==> o.action == Revert))
    && (forall k <- l.events :: k in l'.events && SameOwner(l.events[k], l'.events[k]))
  }

  lemma AppendKeepsLog(l: Ledger, l': Ledger, o: Op)
    requires LogsAlternate(l) && Appends(l, l', o)
    ensures LogsAlternate(l')
  {
    assert LogsDense(l);
    forall v | 0 <= v < |l.reviews| ensures ReviewMatchesLog(l, v) {
    }
    forall i | 0 <= i < |l.ops| ensures OpInLog(l, i) {
    }
    AppendKeepsReviews(l, l', o);
    AppendKeepsOps(l, l', o);
    hide ReviewMatchesLog, LogsDense;
    forall i, j | 0 <= i < j < |l'.ops| && l'.ops[i].review == l'.ops[j].review
      ensures l'.ops[i].expected < l'.ops[j].expected
    {
      assert OpInLog(l, i);
    }
    hide OpInLog;
    AppendKeepsDense(l, l', o);
  }

  lemma AppendKeepsReviews(l: Ledger, l': Ledger, o: Op)
    requires Appends(l, l', o) && forall v | 0 <= v < |l.reviews| :: ReviewMatchesLog(l, v)
    ensures forall v | 0 <= v < |l'.reviews| :: ReviewMatchesLog(l', v)
  {
    forall v | 0 <= v < |l'.reviews| ensures ReviewMatchesLog(l', v) {
      assert ReviewMatchesLog(l, v);
    }
  }

  lemma AppendKeepsOps(l: Ledger, l': Ledger, o: Op)
    requires Appends(l, l', o) && ReviewMatchesLog(l, o.review) && forall i | 0 <= i < |l.ops| :: OpInLog(l, i)
    ensures forall i | 0 <= i < |l'.ops| :: OpInLog(l', i)
  {
    forall i | 0 <= i < |l'.ops| ensures OpInLog(l', i) {
      if i < |l.ops| { assert OpInLog(l, i); }
    }
  }

  lemma AppendKeepsDense(l: Ledger, l': Ledger, o: Op)
    requires LogsDense(l) && l'.ops == l.ops + [o] && |l'.reviews| == |l.reviews|
    requires o.review < |l.reviews| && o.expected == l.reviews[o.review].revision
    requires forall v | 0 <= v < |l.reviews| ::
      l'.reviews[v].revision == if v == o.review then l.reviews[v].revision + 1 else l.reviews[v].revision
    ensures LogsDense(l')
  {
    forall v, p: nat | 0 <= v < |l'.reviews| && 1 <= p < l'.reviews[v].revision ensures LogHas(l'.ops, v, p) {
      if p < l.reviews[v].revision {
        assert LogHas(l.ops, v, p);
        var i :| 0 <= i < |l.ops| && l.ops[i].review == v && l.ops[i].expected == p;
        assert l'.ops[i] == l.ops[i];
      } else {
        assert l'.ops[|l.ops|] == o;
      }
    }
  }

  /** Tables that no operation is appended to keep the log when reviews and ops are untouched. */
  lemma SameLog(l: Ledger, l': Ledger)
    requires LogsAlternate(l)
    requires l'.ops == l.ops && l'.opByKey == l.opByKey && l'.reviews == l.reviews
    requires forall k <- l.events :: k in l'.events && SameOwner(l.events[k], l'.events[k])
    ensures LogsAlternate(l')
  {
    forall v | 0 <= v < |l'.reviews| ensures ReviewMatchesLog(l', v) {
      assert ReviewMatchesLog(l, v);
    }
    forall i | 0 <= i < |l'.ops| ensures OpInLog(l', i) {
      assert OpInLog(l, i);
    }
  }

  // ---- tombstones: the three ways a row's status changes

  lemma InsertKeepsTombstones(rows: map<FactId, Row>, tombstones: map<FactId, Tombstone>, ref: FactId, row: Row)
    requires TombstonesMatch(rows, tombstones) && ref !in rows && row.status == Active
    ensures TombstonesMatch(rows[ref := row], tombstones)
  {
  }

  lemma RetireKeepsTombstones(rows: map<FactId, Row>, tombstones: map<FactId, Tombstone>, ref: FactId, tenant: string,
                              user: string, status: RowStatus, supersededBy: Option<FactId>, revision: nat)
    requires TombstonesMatch(rows, tombstones) && OwnedRow(rows, ref, tenant, user) && status != Active
    ensures TombstonesMatch(SetStatus(rows, ref, tenant, user, status, supersededBy, revision),
                            PutTombstone(tombstones, ref, tenant, user, revision))
  {
  }

  lemma ConfirmTombstones(rows: map<FactId, Row>, tombstones: map<FactId, Tombstone>, ref: FactId, row: Row,
                          target: Option<FactId>, tenant: string, user: string, revision: nat)
    requires TombstonesMatch(rows, tombstones) && ref !in rows && row.status == Active
    requires target.Some? ==> OwnedRow(rows, target.value, tenant, user)
    ensures TombstonesMatch(ConfirmedRows(rows, ref, row, target, tenant, user, revision),
                            ConfirmedTombstones(tombstones, target, tenant, user, revision))
  {
    InsertKeepsTombstones(rows, tombstones, ref, row);
    if target.Some? {
      RetireKeepsTombstones(rows[ref := row], tombstones, target.value, tenant, user, Superseded, Some(ref), revision);
    }
  }

  lemma RestoreKeepsTombstones(rows: map<FactId, Row>, tombstones: map<FactId, Tombstone>, ref: FactId, tenant: string,
                               user: string, revision: nat)
    requires TombstonesMatch(rows, tombstones) && Revocable(tombstones, ref, tenant, user)
    requires tombstones[ref].deleted < revision
    ensures TombstonesMatch(SetStatus(rows, ref, tenant, user, Active, None, revision),
                            tombstones[ref := tombstones[ref].(revoked := Some(revision))])
  {
  }

  // ---- confirmations

  lemma ConfirmKeepsBounds(l: Ledger, review: nat, idem: string, action: Action, payload: Payload, ref: FactId,
                           target: Option<FactId>)
    requires RevisionsBounded(l) && ConfirmReady(l, review, idem, action, payload, ref, target)
    ensures RevisionsBounded(CommitConfirm(l, review, idem, action, payload, ref, target))
  {
  }

  lemma ConfirmKeepsTombstones(l: Ledger, review: nat, idem: string, action: Action, payload: Payload, ref: FactId,
                               target: Option<FactId>)
    requires TombstonesMatch(l.rows, l.tombstones)
    requires ConfirmReady(l, review, idem, action, payload, ref, target)
    ensures var l' := CommitConfirm(l, review, idem, action, payload, ref, target);
      TombstonesMatch(l'.rows, l'.tombstones)
  {
    var l' := CommitConfirm(l, review, idem, action, payload, ref, target);
    var e := l.events[l.reviews[review].origin];
    var row := Row(BindingOf(l.reviews[review].origin, e, payload), l.reviews[review].origin, payload.keys,
                   payload.instruction, false, Active, None, l.revision + 1);
    assert target.Some? ==> OwnedRow(l.rows, target.value, e.tenant, e.user);
    ConfirmTombstones(l.rows, l.tombstones, ref, row, target, e.tenant, e.user, l.revision + 1);
    assert l'.rows == ConfirmedRows(l.rows, ref, row, target, e.tenant, e.user, l.revision + 1);
    assert l'.tombstones == ConfirmedTombstones(l.tombstones, target, e.tenant, e.user, l.revision + 1);
  }

  lemma ConfirmKeepsEvents(l: Ledger, review: nat, idem: string, action: Action, payload: Payload, ref: FactId,
                           target: Option<FactId>)
    requires EventsMatch(l) && ConfirmReady(l, review, idem, action, payload, ref, target)
    ensures EventsMatch(CommitConfirm(l, review, idem, action, payload, ref, target))
  {
    hide EventsMatch, ConfirmedTombstones, MarkStale, ConfirmedRows, BindingOf;
    var l', origin := CommitConfirm(l, review, idem, action, payload, ref, target), l.reviews[review].origin;
    RowsOnlyGrow(l.rows, ref, Row(BindingOf(origin, l.events[origin], payload), origin, payload.keys, payload.instruction, false, Active, None, l.revision + 1),
                 target, l.events[origin].tenant, l.events[origin].user, l.revision + 1);
    ConfirmedEventMatches(l, l', origin, ref);
  }

  /** The candidate's event and its external bindings now lead to a reference that has a row. */
  lemma ConfirmedEventMatches(l: Ledger, l': Ledger, origin: EventKey, ref: FactId)
    requires EventsMatch(l) && origin in l.events && l.events[origin].status == Applied
    requires l'.receipts == l.receipts && l'.rows.Keys == l.rows.Keys + {ref} && l'.rowByOrigin.Keys == l.rowByOrigin.Keys + {origin}
    requires origin in l'.events && l'.events == l.events[origin := l'.events[origin]] && l'.events[origin].status == Applied
    requires l'.events[origin].backendRef == Some(ref) && l'.events[origin].result == Some(CandidateConfirmed)
    requires |l'.reviews| == |l.reviews| && forall v | 0 <= v < |l.reviews| :: l'.reviews[v].origin == l.reviews[v].origin
    requires forall x <- l'.externals :: x in l.externals && (l'.externals[x] == l.externals[x] || l'.externals[x].backendRef == Some(ref))
    ensures EventsMatch(l')
  {
    forall v | 0 <= v < |l'.reviews| ensures Reviewed(l'.events, l'.reviews[v].origin) { assert Reviewed(l.events, l.reviews[v].origin); }
  }

  lemma RowsOnlyGrow(rows: map<FactId, Row>, ref: FactId, row: Row, target: Option<FactId>, tenant: string, user: string, revision: nat)
    ensures ConfirmedRows(rows, ref, row, target, tenant, user, revision).Keys == rows.Keys + {ref}
  {
  }

  lemma ConfirmKeepsOrigins(l: Ledger, review: nat, idem: string, action: Action, payload: Payload, ref: FactId,
                            target: Option<FactId>)
    requires OriginsMatch(l) && ConfirmReady(l, review, idem, action, payload, ref, target)
    ensures OriginsMatch(CommitConfirm(l, review, idem, action, payload, ref, target))
  {
    hide OriginsMatch, FindConflicts, Redirected, ConfirmedTombstones, MarkStale;
    var l', origin := CommitConfirm(l, review, idem, action, payload, ref, target), l.reviews[review].origin;
    ConfirmedRowsKeepOwners(l, review, idem, action, payload, ref, target);
    NewRowMatchesOrigins(l, l', origin, ref);
  }

  lemma ConfirmedRowsKeepOwners(l: Ledger, review: nat, idem: string, action: Action, payload: Payload, ref: FactId,
                                target: Option<FactId>)
    requires ConfirmReady(l, review, idem, action, payload, ref, target)
    ensures var rows, origin := CommitConfirm(l, review, idem, action, payload, ref, target).rows, l.reviews[review].origin;
      && rows.Keys == l.rows.Keys + {ref} && rows[ref].origin == origin
      && rows[ref].binding.tenant == l.events[origin].tenant && rows[ref].binding.user == l.events[origin].user
      && forall r <- l.rows :: rows[r].origin == l.rows[r].origin && rows[r].binding == l.rows[r].binding
  {
  }

  lemma NewRowMatchesOrigins(l: Ledger, l': Ledger, origin: EventKey, ref: FactId)
    requires OriginsMatch(l) && ref !in l.rows && origin !in l.rowByOrigin && origin in l.events && l.events[origin].status == Applied
    requires l'.rows.Keys == l.rows.Keys + {ref} && l'.rows[ref].origin == origin && l'.rowByOrigin == l.rowByOrigin[origin := ref]
    requires l'.rows[ref].binding.tenant == l.events[origin].tenant && l'.rows[ref].binding.user == l.events[origin].user
    requires forall r <- l.rows :: l'.rows[r].origin == l.rows[r].origin && l'.rows[r].binding == l.rows[r].binding
    requires forall k <- l.events :: k in l'.events && SameOwner(l.events[k], l'.events[k])
    ensures OriginsMatch(l')
  {
  }

  lemma ConfirmKeepsCrystals(l: Ledger, review: nat, idem: string, action: Action, payload: Payload, ref: FactId,
                             target: Option<FactId>)
    requires CrystalsFresh(l.rows, l.crystals) && ConfirmReady(l, review, idem, action, payload, ref, target)
    ensures var l' := CommitConfirm(l, review, idem, action, payload, ref, target); CrystalsFresh(l'.rows, l'.crystals)
  {
    var l' := CommitConfirm(l, review, idem, action, payload, ref, target);
    var binding := BindingOf(l.reviews[review].origin, l.events[l.reviews[review].origin], payload);
    CrystalsKept(l.rows, l'.rows, l.crystals, l'.crystals, {binding});
  }

  lemma ConfirmKeepsLog(l: Ledger, review: nat, idem: string, action: Action, payload: Payload, ref: FactId,
                        target: Option<FactId>)
    requires LogsAlternate(l) && ConfirmReady(l, review, idem, action, payload, ref, target)
    ensures LogsAlternate(CommitConfirm(l, review, idem, action, payload, ref, target))
  {
    var l' := CommitConfirm(l, review, idem, action, payload, ref, target);
    AppendKeepsLog(l, l', l'.ops[|l.ops|]);
  }

  /** Operations already recorded keep their effects when rows keep their origin and binding and no target of a
      live supersession becomes active. */
  lemma EffectsKept(l: Ledger, l': Ledger)
    requires EffectsMatch(l) && LogsAlternate(l)
    requires |l.ops| <= |l'.ops| <= |l.ops| + 1 && l'.ops[..|l.ops|] == l.ops && |l.reviews| <= |l'.reviews|
    requires forall v | 0 <= v < |l.reviews| ::
      l'.reviews[v].origin == l.reviews[v].origin && l'.reviews[v].revision >= l.reviews[v].revision
    requires forall k <- l.events :: k in l'.events
    requires forall r <- l.rows :: r in l'.rows && l'.rows[r].origin == l.rows[r].origin && l'.rows[r].binding == l.rows[r].binding
    requires forall i | 0 <= i < |l.ops| && l.ops[i].action == Supersession
               && l.ops[i].expected == l'.reviews[l.ops[i].review].revision - 1 ::
      l'.rows[l.ops[i].target.value].status != Active && l'.rows[l.ops[i].target.value].supersededBy == l.ops[i].ref
    requires |l'.ops| > |l.ops| && l'.ops[|l.ops|].action != Revert ==> EffectRecorded(l', l'.ops[|l.ops|])
    requires |l'.ops| > |l.ops| && l'.ops[|l.ops|].action.CreatesFact() ==> l'.ops[|l.ops|].ref.value !in l.rows
    ensures EffectsMatch(l')
  {
    forall i | 0 <= i < |l'.ops| && l'.ops[i].action != Revert ensures EffectRecorded(l', l'.ops[i]) {
      if i < |l.ops| {
        assert EffectRecorded(l, l.ops[i]) && OpInLog(l, i);
        assert l'.ops[i] == l'.ops[..|l.ops|][i] == l.ops[i];
      }
    }
    forall i, j | 0 <= i < j < |l'.ops| && l'.ops[i].action.CreatesFact() && l'.ops[j].action.CreatesFact()
      ensures l'.ops[i].ref != l'.ops[j].ref
    {
      assert l'.ops[i] == l'.ops[..|l.ops|][i] == l.ops[i];
      assert EffectRecorded(l, l.ops[i]);
      if j < |l.ops| { assert l'.ops[j] == l'.ops[..|l.ops|][j] == l.ops[j]; }
    }
  }

  /** Rows may be added and candidates appended; nothing recorded changes. */
  lemma SameEffects(l: Ledger, l': Ledger)
    requires EffectsMatch(l) && LogsAlternate(l)
    requires l'.ops == l.ops && |l.reviews| <= |l'.reviews| && l'.reviews[..|l.reviews|] == l.reviews
    requires forall k <- l.events :: k in l'.events
    requires forall r <- l.rows :: r in l'.rows && l'.rows[r] == l.rows[r]
    ensures EffectsMatch(l')
  {
    assert forall v | 0 <= v < |l.reviews| :: l'.reviews[v] == l'.reviews[..|l.reviews|][v] == l.reviews[v];
    forall i | 0 <= i < |l.ops| && l.ops[i].action == Supersession
               && l.ops[i].expected == l'.reviews[l.ops[i].review].revision - 1
      ensures l'.rows[l.ops[i].target.value].status != Active && l'.rows[l.ops[i].target.value].supersededBy == l.ops[i].ref
    {
      assert EffectRecorded(l, l.ops[i]) && OpInLog(l, i);
    }
    EffectsKept(l, l');
  }

  lemma ConfirmKeepsEffects(l: Ledger, review: nat, idem: string, action: Action, payload: Payload, ref: FactId,
                            target: Option<FactId>)
    requires EffectsMatch(l) && LogsAlternate(l) && ConfirmReady(l, review, idem, action, payload, ref, target)
    ensures EffectsMatch(CommitConfirm(l, review, idem, action, payload, ref, target))
  {
    hide FindConflicts, Redirected, ConfirmedTombstones, MarkStale;
    var l' := CommitConfirm(l, review, idem, action, payload, ref, target);
    forall i | 0 <= i < |l.ops| && l.ops[i].action == Supersession
               && l.ops[i].expected == l'.reviews[l.ops[i].review].revision - 1
      ensures l'.rows[l.ops[i].target.value].status != Active && l'.rows[l.ops[i].target.value].supersededBy == l.ops[i].ref
    {
      ConfirmKeepsEffect(l, review, idem, action, payload, ref, target, i);
    }
    hide EffectsMatch, LogsAlternate;
    EffectsKept(l, l');
  }

  /** A supersession still in force keeps its target's row: only active rows are superseded. */
  lemma ConfirmKeepsEffect(l: Ledger, review: nat, idem: string, action: Action, payload: Payload, ref: FactId, target: Option<FactId>, i: nat)
    requires EffectsMatch(l) && LogsAlternate(l) && ConfirmReady(l, review, idem, action, payload, ref, target)
    requires i < |l.ops| && l.ops[i].action == Supersession && l.ops[i].review < |l.reviews| && l.ops[i].target.Some?
    requires l.ops[i].expected == CommitConfirm(l, review, idem, action, payload, ref, target).reviews[l.ops[i].review].revision - 1
    ensures var rows, t := CommitConfirm(l, review, idem, action, payload, ref, target).rows, l.ops[i].target.value;
      t in rows && rows[t].status != Active && rows[t].supersededBy == l.ops[i].ref
  {
    hide FindConflicts, Redirected, ConfirmedTombstones, MarkStale;
    assert EffectRecorded(l, l.ops[i]) && OpInLog(l, i);
  }

  lemma ConfirmKeepsLedger(l: Ledger, review: nat, idem: string, action: Action, payload: Payload, ref: FactId,
                           target: Option<FactId>)
    requires LedgerOk(l) && ConfirmReady(l, review, idem, action, payload, ref, target)
    ensures LedgerOk(CommitConfirm(l, review, idem, action, payload, ref, target))
  {
    hide TombstonesMatch, CrystalsFresh, LogsAlternate, EffectsMatch, EventsMatch, OriginsMatch, RevisionsBounded;
    ConfirmKeepsBounds(l, review, idem, action, payload, ref, target);
    ConfirmKeepsTombstones(l, review, idem, action, payload, ref, target);
    ConfirmKeepsEvents(l, review, idem, action, payload, ref, target);
    ConfirmKeepsOrigins(l, review, idem, action, payload, ref, target);
    ConfirmKeepsCrystals(l, review, idem, action, payload, ref, target);
    ConfirmKeepsLog(l, review, idem, action, payload, ref, target);
    ConfirmKeepsEffects(l, review, idem, action, payload, ref, target);
  }

  // ---- closing without a fact

  lemma CloseKeepsLedger(l: Ledger, review: nat, idem: string, action: Action)
    requires LedgerOk(l) && review < |l.reviews| && l.reviews[review].origin in l.events
    requires l.reviews[review].status == Open && idem !in l.opByKey && (action == Archive || action == Reject)
    ensures LedgerOk(CommitClose(l, review, idem, action))
  {
    hide LogsAlternate, EffectsMatch, EventsMatch, OriginsMatch, TombstonesMatch, CrystalsFresh;
    CloseKeepsLog(l, review, idem, action);
    CloseKeepsEffects(l, review, idem, action);
    CloseKeepsRows(l, review, idem, action);
  }

  /** Closing touches no table but the log and the candidate. */
  lemma CloseKeepsRows(l: Ledger, review: nat, idem: string, action: Action)
    requires review < |l.reviews| && l.reviews[review].origin in l.events
    requires EventsMatch(l) && OriginsMatch(l) && TombstonesMatch(l.rows, l.tombstones) && CrystalsFresh(l.rows, l.crystals) && RevisionsBounded(l)
    ensures var l' := CommitClose(l, review, idem, action);
      EventsMatch(l') && OriginsMatch(l') && TombstonesMatch(l'.rows, l'.tombstones) && CrystalsFresh(l'.rows, l'.crystals) && RevisionsBounded(l')
  {
    hide Sources;
  }

  lemma CloseKeepsLog(l: Ledger, review: nat, idem: string, action: Action)
    requires LogsAlternate(l) && review < |l.reviews| && l.reviews[review].origin in l.events
    requires l.reviews[review].status == Open && idem !in l.opByKey && (action == Archive || action == Reject)
    ensures LogsAlternate(CommitClose(l, review, idem, action))
  {
    var l' := CommitClose(l, review, idem, action);
    AppendKeepsLog(l, l', l'.ops[|l.ops|]);
  }

  lemma CloseKeepsEffects(l: Ledger, review: nat, idem: string, action: Action)
    requires EffectsMatch(l) && LogsAlternate(l) && review < |l.reviews| && l.reviews[review].origin in l.events
    requires l.reviews[review].status == Open && idem !in l.opByKey && (action == Archive || action == Reject)
    ensures EffectsMatch(CommitClose(l, review, idem, action))
  {
    var l' := CommitClose(l, review, idem, action);
    forall i | 0 <= i < |l.ops| && l.ops[i].action == Supersession
               && l.ops[i].expected == l'.reviews[l.ops[i].review].revision - 1
      ensures l'.rows[l.ops[i].target.value].status != Active && l'.rows[l.ops[i].target.value].supersededBy == l.ops[i].ref
    {
      assert EffectRecorded(l, l.ops[i]) && OpInLog(l, i);
    }
    EffectsKept(l, l');
  }

  // ---- reverts

  /** The tombstone a revert revokes is always there: the TombstoneMissing failure cannot happen. */
  lemma TombstoneNeverMissing(l: Ledger, review: nat, idem: string, opId: nat)
    requires TombstonesMatch(l.rows, l.tombstones) && OriginsMatch(l) && LogsAlternate(l) && EffectsMatch(l)
    requires RevertReady(l, review, idem, opId)
    ensures var e, undone := l.events[l.reviews[review].origin], l.ops[opId];
      && (undone.ref.Some? ==> OwnedRow(l.rows, undone.ref.value, e.tenant, e.user))
      && (undone.action == Supersession ==>
           && undone.ref.Some? && undone.target.Some? && undone.target != undone.ref
           && OwnedRow(l.rows, undone.target.value, e.tenant, e.user)
           && l.rows[undone.target.value].status != Active && l.rows[undone.target.value].supersededBy == undone.ref
           && Revocable(l.tombstones, undone.target.value, e.tenant, e.user))
  {
    assert ReviewMatchesLog(l, review) && EffectRecorded(l, l.ops[opId]);
  }

  lemma RevertTombstones(rows: map<FactId, Row>, tombstones: map<FactId, Tombstone>, undone: Op, tenant: string,
                         user: string, l: Ledger)
    requires TombstonesMatch(rows, tombstones) && l.rows == rows && l.tombstones == tombstones
    requires forall r <- tombstones :: tombstones[r].deleted <= l.revision
    requires undone.ref.Some? ==> OwnedRow(rows, undone.ref.value, tenant, user)
    requires undone.action == Supersession ==>
      undone.target.Some? && undone.target != undone.ref && Revocable(tombstones, undone.target.value, tenant, user)
    ensures TombstonesMatch(RevertedRows(l, undone, tenant, user), RevertedTombstones(l, undone, tenant, user))
  {
    var rows1, tombstones1 := rows, tombstones;
    if undone.ref.Some? {
      var r := undone.ref.value;
      RetireKeepsTombstones(rows, tombstones, r, tenant, user, Archived, SupersededByOf(rows, r), l.revision + 1);
      rows1 := SetStatus(rows, r, tenant, user, Archived, SupersededByOf(rows, r), l.revision + 1);
      tombstones1 := PutTombstone(tombstones, r, tenant, user, l.revision + 1);
    }
    if undone.action == Supersession {
      RestoreKeepsTombstones(rows1, tombstones1, undone.target.value, tenant, user, l.revision + 1);
    }
  }

  lemma RevertKeepsTombstones(l: Ledger, review: nat, idem: string, opId: nat)
    requires LedgerOk(l) && RevertReady(l, review, idem, opId)
    ensures var l' := CommitRevert(l, review, idem, opId); TombstonesMatch(l'.rows, l'.tombstones)
  {
    var e := l.events[l.reviews[review].origin];
    TombstoneNeverMissing(l, review, idem, opId);
    RevertTombstones(l.rows, l.tombstones, l.ops[opId], e.tenant, e.user, l);
  }

  /** Status changes of rows leave the event tables and the origin index alone. */
  lemma StatusKeepsEvents(l: Ledger, l': Ledger)
    requires EventsMatch(l) && OriginsMatch(l)
    requires l'.events == l.events && l'.receipts == l.receipts && l'.externals == l.externals && l'.rowByOrigin == l.rowByOrigin
    requires l'.rows.Keys == l.rows.Keys
    requires forall r <- l.rows :: l'.rows[r].origin == l.rows[r].origin && l'.rows[r].binding == l.rows[r].binding
    requires |l'.reviews| == |l.reviews| && forall v | 0 <= v < |l.reviews| :: l'.reviews[v].origin == l.reviews[v].origin
    ensures EventsMatch(l') && OriginsMatch(l')
  {
  }

  lemma RevertedKeepsOrigins(l: Ledger, review: nat, idem: string, opId: nat)
    requires RevertReady(l, review, idem, opId)
    ensures var rows := CommitRevert(l, review, idem, opId).rows;
      rows.Keys == l.rows.Keys && forall r <- l.rows :: rows[r].binding == l.rows[r].binding && rows[r].origin == l.rows[r].origin
  {
  }

  lemma RevertKeepsEvents(l: Ledger, review: nat, idem: string, opId: nat)
    requires EventsMatch(l) && OriginsMatch(l) && RevertReady(l, review, idem, opId)
    ensures EventsMatch(CommitRevert(l, review, idem, opId)) && OriginsMatch(CommitRevert(l, review, idem, opId))
  {
    hide EventsMatch, OriginsMatch;
    RevertedKeepsOrigins(l, review, idem, opId);
    StatusKeepsEvents(l, CommitRevert(l, review, idem, opId));
  }

  lemma RevertKeepsBounds(l: Ledger, review: nat, idem: string, opId: nat)
    requires RevisionsBounded(l) && RevertReady(l, review, idem, opId)
    ensures RevisionsBounded(CommitRevert(l, review, idem, opId))
  {
  }

  lemma RevertKeepsCrystals(l: Ledger, review: nat, idem: string, opId: nat)
    requires CrystalsFresh(l.rows, l.crystals) && RevertReady(l, review, idem, opId)
    ensures var l' := CommitRevert(l, review, idem, opId); CrystalsFresh(l'.rows, l'.crystals)
  {
    hide CrystalsFresh, RevertedRows, RevertedCrystals, RevertedTombstones, BindingsUndone;
    var e, undone := l.events[l.reviews[review].origin], l.ops[opId];
    UndoTouchesRows(l, undone, e.tenant, e.user);
    UndoTouchesCrystals(l.crystals, l.rows, undone);
    CrystalsKept(l.rows, RevertedRows(l, undone, e.tenant, e.user), l.crystals, RevertedCrystals(l.crystals, l.rows, undone),
                 BindingsUndone(l.rows, undone));
  }

  /** The scopes of the rows a revert may rewrite. */
  function BindingsUndone(rows: map<FactId, Row>, undone: Op): set<ScopeBinding> {
    (match undone.ref case None => {} case Some(r) => if r in rows then {rows[r].binding} else {})
    + (match undone.target case None => {}
       case Some(t) => if t in rows && undone.action == Supersession then {rows[t].binding} else {})
  }

  lemma UndoTouchesRows(l: Ledger, undone: Op, tenant: string, user: string)
    ensures var touched, rows' := BindingsUndone(l.rows, undone), RevertedRows(l, undone, tenant, user);
      && (forall r <- l.rows :: l.rows[r].binding !in touched ==> r in rows' && rows'[r] == l.rows[r])
      && (forall r <- rows' :: rows'[r].binding !in touched ==> r in l.rows && rows'[r] == l.rows[r])
  {
  }

  lemma UndoTouchesCrystals(crystals: map<ScopeBinding, Crystal>, rows: map<FactId, Row>, undone: Op)
    ensures var crystals' := RevertedCrystals(crystals, rows, undone);
      forall b <- crystals' | crystals'[b].ready :: b !in BindingsUndone(rows, undone) && b in crystals && crystals[b] == crystals'[b]
  {
  }

  lemma RevertKeepsLog(l: Ledger, review: nat, idem: string, opId: nat)
    requires LogsAlternate(l) && RevertReady(l, review, idem, opId)
    ensures LogsAlternate(CommitRevert(l, review, idem, opId))
  {
    var l' := CommitRevert(l, review, idem, opId);
    assert ReviewMatchesLog(l, review) && OpInLog(l, opId);
    AppendKeepsLog(l, l', l'.ops[|l.ops|]);
  }

  lemma RevertKeepsEffects(l: Ledger, review: nat, idem: string, opId: nat)
    requires EffectsMatch(l) && LogsAlternate(l) && RevertReady(l, review, idem, opId)
    ensures EffectsMatch(CommitRevert(l, review, idem, opId))
  {
    hide RevertedTombstones, RevertedCrystals;
    var l', undone := CommitRevert(l, review, idem, opId), l.ops[opId];
    assert ReviewMatchesLog(l, review) && EffectRecorded(l, undone);
    forall i | 0 <= i < |l.ops| && l.ops[i].action == Supersession
               && l.ops[i].expected == l'.reviews[l.ops[i].review].revision - 1
      ensures l'.rows[l.ops[i].target.value].status != Active && l'.rows[l.ops[i].target.value].supersededBy == l.ops[i].ref
    {
      assert EffectRecorded(l, l.ops[i]) && OpInLog(l, i);
      assert i != opId;
    }
    EffectsKept(l, l');
  }

  lemma RevertKeepsLedger(l: Ledger, review: nat, idem: string, opId: nat)
    requires LedgerOk(l) && RevertReady(l, review, idem, opId)
    ensures LedgerOk(CommitRevert(l, review, idem, opId))
  {
    hide TombstonesMatch, CrystalsFresh, LogsAlternate, EffectsMatch, EventsMatch, OriginsMatch, RevisionsBounded;
    RevertKeepsTombstones(l, review, idem, opId);
    RevertKeepsBounds(l, review, idem, opId);
    RevertKeepsEvents(l, review, idem, opId);
    RevertKeepsCrystals(l, review, idem, opId);
    RevertKeepsLog(l, review, idem, opId);
    RevertKeepsEffects(l, review, idem, opId);
  }

  // ---- forgetting

  lemma ForgetKeepsLedger(l: Ledger, ref: FactId, tenant: string, user: string)
    requires LedgerOk(l) && OwnedRow(l.rows, ref, tenant, user) && l.rows[ref].status == Active
    ensures LedgerOk(CommitForget(l, ref, tenant, user))
  {
    hide TombstonesMatch, CrystalsFresh, LogsAlternate, EffectsMatch, EventsMatch, OriginsMatch, RevisionsBounded;
    ForgetKeepsTombstones(l, ref, tenant, user);
    ForgetKeepsBounds(l, ref, tenant, user);
    ForgetKeepsEvents(l, ref, tenant, user);
    ForgetKeepsEffects(l, ref, tenant, user);
    ForgetKeepsCrystals(l, ref, tenant, user);
    SameLog(l, CommitForget(l, ref, tenant, user));
  }

  lemma ForgetKeepsTombstones(l: Ledger, ref: FactId, tenant: string, user: string)
    requires TombstonesMatch(l.rows, l.tombstones) && OwnedRow(l.rows, ref, tenant, user)
    ensures var l' := CommitForget(l, ref, tenant, user); TombstonesMatch(l'.rows, l'.tombstones)
  {
    RetireKeepsTombstones(l.rows, l.tombstones, ref, tenant, user, Archived, l.rows[ref].supersededBy, l.revision + 1);
    assert CommitForget(l, ref, tenant, user).rows
        == SetStatus(l.rows, ref, tenant, user, Archived, l.rows[ref].supersededBy, l.revision + 1);
  }

  lemma ForgetKeepsCrystals(l: Ledger, ref: FactId, tenant: string, user: string)
    requires CrystalsFresh(l.rows, l.crystals) && ref in l.rows
    ensures var l' := CommitForget(l, ref, tenant, user); CrystalsFresh(l'.rows, l'.crystals)
  {
    var l' := CommitForget(l, ref, tenant, user);
    CrystalsKept(l.rows, l'.rows, l.crystals, l'.crystals, {l.rows[ref].binding});
  }

  lemma ForgetKeepsEvents(l: Ledger, ref: FactId, tenant: string, user: string)
    requires EventsMatch(l) && OriginsMatch(l) && ref in l.rows
    ensures EventsMatch(CommitForget(l, ref, tenant, user)) && OriginsMatch(CommitForget(l, ref, tenant, user))
  {
    StatusKeepsEvents(l, CommitForget(l, ref, tenant, user));
  }

  lemma ForgetKeepsBounds(l: Ledger, ref: FactId, tenant: string, user: string)
    requires RevisionsBounded(l) && ref in l.rows
    ensures RevisionsBounded(CommitForget(l, ref, tenant, user))
  {
  }

  lemma ForgetKeepsEffects(l: Ledger, ref: FactId, tenant: string, user: string)
    requires EffectsMatch(l) && LogsAlternate(l) && ref in l.rows && l.rows[ref].status == Active
    ensures EffectsMatch(CommitForget(l, ref, tenant, user))
  {
    var l' := CommitForget(l, ref, tenant, user);
    forall i | 0 <= i < |l.ops| && l.ops[i].action == Supersession
               && l.ops[i].expected == l'.reviews[l.ops[i].review].revision - 1
      ensures l'.rows[l.ops[i].target.value].status != Active && l'.rows[l.ops[i].target.value].supersededBy == l.ops[i].ref
    {
      assert EffectRecorded(l, l.ops[i]) && OpInLog(l, i);
    }
    EffectsKept(l, l');
  }

  // ---- worker transactions

  lemma AppliedKeepsLedger(l: Ledger, key: EventKey, ref: FactId)
    requires LedgerOk(l) && key in l.events && l.events[key].status != Applied && key !in l.rowByOrigin && ref !in l.rows
    ensures LedgerOk(CommitApplied(l, key, ref))
  {
    hide TombstonesMatch, CrystalsFresh, LogsAlternate, EffectsMatch, EventsMatch, OriginsMatch, RevisionsBounded;
    AppliedKeepsRows(l, key, ref);
    AppliedKeepsLogs(l, key, ref);
    AppliedKeepsEvents(l, key, ref);
    AppliedKeepsBounds(l, key, ref);
  }

  lemma AppliedKeepsRows(l: Ledger, key: EventKey, ref: FactId)
    requires TombstonesMatch(l.rows, l.tombstones) && CrystalsFresh(l.rows, l.crystals) && key in l.events && ref !in l.rows
    ensures var l' := CommitApplied(l, key, ref); TombstonesMatch(l'.rows, l'.tombstones) && CrystalsFresh(l'.rows, l'.crystals)
  {
    var l', e := CommitApplied(l, key, ref), l.events[key];
    var row := Row(BindingOf(key, e, e.payload), key, e.payload.keys, false, false, Active, None, l.revision + 1);
    InsertKeepsTombstones(l.rows, l.tombstones, ref, row);
    CrystalsKept(l.rows, l'.rows, l.crystals, l'.crystals, {row.binding});
  }

  lemma AppliedKeepsLogs(l: Ledger, key: EventKey, ref: FactId)
    requires LogsAlternate(l) && EffectsMatch(l) && key in l.events && ref !in l.rows
    ensures LogsAlternate(CommitApplied(l, key, ref)) && EffectsMatch(CommitApplied(l, key, ref))
  {
    var l' := CommitApplied(l, key, ref);
    SameLog(l, l');
    SameEffects(l, l');
  }

  lemma AppliedKeepsEvents(l: Ledger, key: EventKey, ref: FactId)
    requires EventsMatch(l) && OriginsMatch(l)
    requires key in l.events && l.events[key].status != Applied && key !in l.rowByOrigin && ref !in l.rows
    ensures EventsMatch(CommitApplied(l, key, ref)) && OriginsMatch(CommitApplied(l, key, ref))
  {
    hide EventsMatch, OriginsMatch, RegisterExternal;
    AppliedKeepsReceipts(l, key, ref);
    AppliedKeepsOrigins(l, key, ref);
  }

  lemma AppliedKeepsReceipts(l: Ledger, key: EventKey, ref: FactId)
    requires EventsMatch(l) && key in l.events && l.events[key].status != Applied && ref !in l.rows
    ensures EventsMatch(CommitApplied(l, key, ref))
  {
    hide RegisterExternal, BindingOf, MarkStale, EventsMatch;
    RegisteringRef(l.externals, key, l.events[key], ref);
    AppliedEventMatches(l, CommitApplied(l, key, ref), key, ref);
  }

  lemma AppliedEventMatches(l: Ledger, l': Ledger, key: EventKey, ref: FactId)
    requires EventsMatch(l) && key in l.events && l.events[key].status != Applied && l'.reviews == l.reviews
    requires l'.events.Keys == l.events.Keys && forall k <- l.events | k != key :: l'.events[k] == l.events[k]
    requires var e := l'.events[key]; e.status == Applied && e.backendRef == Some(ref) && e.result == Some(CandidateConfirmed)
    requires l'.receipts.Keys == l.receipts.Keys + {key} && l'.rows.Keys == l.rows.Keys + {ref} && key in l'.rowByOrigin
    requires forall k <- l.rowByOrigin :: k in l'.rowByOrigin
    requires forall x <- l'.externals :: l'.externals[x].backendRef.Some? ==>
      l'.externals[x].backendRef.value == ref || (x in l.externals && l.externals[x].backendRef == l'.externals[x].backendRef)
    ensures EventsMatch(l')
  {
    forall v | 0 <= v < |l.reviews| ensures Reviewed(l'.events, l.reviews[v].origin) {
      assert Reviewed(l.events, l.reviews[v].origin);
    }
  }

  lemma RegisteringRef(externals: map<ExternalKey, External>, key: EventKey, e: Event, ref: FactId)
    ensures var after := RegisterExternal(externals, key, e, Some(ref));
      forall x <- after :: after[x].backendRef.Some? ==> after[x].backendRef.value == ref || (x in externals && externals[x].backendRef == after[x].backendRef)
  {
  }

  lemma AppliedKeepsOrigins(l: Ledger, key: EventKey, ref: FactId)
    requires OriginsMatch(l) && key in l.events && key !in l.rowByOrigin && ref !in l.rows
    ensures OriginsMatch(CommitApplied(l, key, ref))
  {
    hide RegisterExternal;
  }

  lemma AppliedKeepsBounds(l: Ledger, key: EventKey, ref: FactId)
    requires RevisionsBounded(l) && key in l.events
    ensures RevisionsBounded(CommitApplied(l, key, ref))
  {
  }

  lemma ReviewKeepsLedger(l: Ledger, key: EventKey)
    requires LedgerOk(l) && key in l.events && l.events[key].status != Applied
    ensures LedgerOk(CommitReview(l, key))
  {
    hide TombstonesMatch, CrystalsFresh, LogsAlternate, EffectsMatch, EventsMatch, OriginsMatch, Settles;
    var l' := CommitReview(l, key);
    ReviewKeepsLog(l, key);
    SameEffects(l, l');
    ReviewSettles(l, key);
    EventsSettle(l, l', key);
    OriginsSettle(l, l', key);
  }

  lemma ReviewKeepsLog(l: Ledger, key: EventKey)
    requires LogsAlternate(l) && key in l.events && l.events[key].status != Applied
    ensures LogsAlternate(CommitReview(l, key))
  {
    var l' := CommitReview(l, key);
    forall v | 0 <= v < |l'.reviews| ensures ReviewMatchesLog(l', v) {
      if v < |l.reviews| { assert ReviewMatchesLog(l, v); }
    }
    forall i | 0 <= i < |l'.ops| ensures OpInLog(l', i) {
      assert OpInLog(l, i);
    }
  }

  /** One unapplied event is settled, with a receipt exactly when it is applied; the other tables stay. */
  ghost predicate Settles(l: Ledger, l': Ledger, key: EventKey) {
    && key in l.events && l.events[key].status != Applied
    && l'.rows == l.rows && l'.rowByOrigin == l.rowByOrigin
    && (forall x <- l'.externals :: l'.externals[x].backendRef.Some? ==>
         x in l.externals && l.externals[x].backendRef == l'.externals[x].backendRef)
    && l'.events.Keys == l.events.Keys && (forall k <- l.events | k != key :: l'.events[k] == l.events[k])
    && (forall k <- l.receipts :: k in l'.receipts) && (forall k <- l'.receipts :: k in l.receipts || k == key)
    && (forall v | 0 <= v < |l'.reviews| ::
         (v < |l.reviews| && l'.reviews[v] == l.reviews[v]) || (l'.reviews[v].origin == key && Reviewed(l'.events, key)))
    && SettledEvent(l, l.events[key], l'.events[key], key in l'.receipts)
  }

  ghost predicate SettledEvent(l: Ledger, e: Event, e': Event, receipt: bool) {
    && e'.tenant == e.tenant && e'.user == e.user && e'.status != Rejected
    && (receipt <==> e'.status == Applied)
    && (e'.backendRef.Some? ==> e'.backendRef.value in l.rows && e'.status == Applied)
    && (e'.result == Some(CandidateConfirmed) ==> e.result == e'.result)
    && (e'.result == Some(CandidateCreated) ==> e'.backendRef.None?)
  }

  lemma EventsSettle(l: Ledger, l': Ledger, key: EventKey)
    requires EventsMatch(l) && Settles(l, l', key)
    ensures EventsMatch(l')
  {
    hide Reviewed;
    forall v | 0 <= v < |l'.reviews| ensures Reviewed(l'.events, l'.reviews[v].origin) {
      CandidateStaysReviewed(l, l', key, v);
    }
  }

  lemma CandidateStaysReviewed(l: Ledger, l': Ledger, key: EventKey, v: nat)
    requires EventsMatch(l) && Settles(l, l', key) && v < |l'.reviews|
    ensures Reviewed(l'.events, l'.reviews[v].origin)
  {
    if v < |l.reviews| { assert Reviewed(l.events, l.reviews[v].origin); }
    hide SettledEvent;
  }

  lemma OriginsSettle(l: Ledger, l': Ledger, key: EventKey)
    requires OriginsMatch(l) && Settles(l, l', key)
    ensures OriginsMatch(l')
  {
  }

  lemma UnappliedIsPlain(l: Ledger, key: EventKey)
    requires EventsMatch(l) && key in l.events && l.events[key].status != Applied
    ensures l.events[key].backendRef.None? && key !in l.receipts && l.events[key].status != Rejected
  {
  }

  lemma ReviewSettles(l: Ledger, key: EventKey)
    requires EventsMatch(l) && key in l.events && l.events[key].status != Applied
    ensures Settles(l, CommitReview(l, key), key)
  {
    hide EventsMatch, RegisterExternal;
    var l' := CommitReview(l, key);
    assert Reviewed(l'.events, key);
    UnappliedIsPlain(l, key);
    RegisteringNothing(l.externals, key, l.events[key]);
    hide Reviewed;
  }

  lemma RegisteringNothing(externals: map<ExternalKey, External>, key: EventKey, e: Event)
    ensures var after := RegisterExternal(externals, key, e, None);
      forall x <- after :: after[x].backendRef.Some? ==> x in externals && externals[x].backendRef == after[x].backendRef
  {
  }

  lemma DuplicateSettles(l: Ledger, key: EventKey, x: ExternalKey)
    requires EventsMatch(l) && key in l.events && l.events[key].status != Applied && x in l.externals
    ensures Settles(l, CommitDuplicate(l, key, l.externals[x].backendRef), key)
  {
  }

  lemma FailuresSettle(l: Ledger, key: EventKey)
    requires EventsMatch(l) && key in l.events && l.events[key].status != Applied
    ensures Settles(l, CommitRetry(l, key), key) && Settles(l, CommitDeadLetter(l, key), key)
  {
    hide EventsMatch, Reviewed, Settles;
    UnappliedIsPlain(l, key);
    OnlyEventSettles(l, CommitRetry(l, key), key);
    OnlyEventSettles(l, CommitDeadLetter(l, key), key);
  }

  lemma OnlyEventSettles(l: Ledger, l': Ledger, key: EventKey)
    requires key in l.events && l.events[key].status != Applied && l.events[key].backendRef.None? && key !in l.receipts
    requires l'.events.Keys == l.events.Keys && l' == l.(events := l'.events) && forall k <- l.events | k != key :: l'.events[k] == l.events[k]
    requires l'.events[key].status == Retryable || l'.events[key].status == DeadLetter
    requires var e, e' := l.events[key], l'.events[key];
      e'.tenant == e.tenant && e'.user == e.user && e'.backendRef == e.backendRef && e'.result == e.result
    ensures Settles(l, l', key)
  {
  }

  lemma FailuresKeepBounds(l: Ledger, key: EventKey)
    requires RevisionsBounded(l) && key in l.events
    ensures RevisionsBounded(CommitRetry(l, key)) && RevisionsBounded(CommitDeadLetter(l, key))
  {
  }

  lemma DuplicateKeepsLedger(l: Ledger, key: EventKey, x: ExternalKey)
    requires LedgerOk(l) && key in l.events && l.events[key].status != Applied && x in l.externals
    ensures LedgerOk(CommitDuplicate(l, key, l.externals[x].backendRef))
  {
    hide TombstonesMatch, CrystalsFresh, LogsAlternate, EffectsMatch, EventsMatch, OriginsMatch, Settles, RevisionsBounded;
    var l' := CommitDuplicate(l, key, l.externals[x].backendRef);
    DuplicateSettles(l, key, x);
    EventsSettle(l, l', key);
    OriginsSettle(l, l', key);
    DuplicateKeepsLog(l, key, l.externals[x].backendRef);
  }

  lemma DuplicateKeepsLog(l: Ledger, key: EventKey, ref: Option<FactId>)
    requires LogsAlternate(l) && EffectsMatch(l) && RevisionsBounded(l) && key in l.events
    ensures var l' := CommitDuplicate(l, key, ref); LogsAlternate(l') && EffectsMatch(l') && RevisionsBounded(l')
  {
    hide LogsAlternate, EffectsMatch;
    var l' := CommitDuplicate(l, key, ref);
    SameLog(l, l');
    SameEffects(l, l');
  }

  lemma RetryKeepsLedger(l: Ledger, key: EventKey)
    requires LedgerOk(l) && key in l.events && l.events[key].status != Applied
    ensures LedgerOk(CommitRetry(l, key))
  {
    hide TombstonesMatch, CrystalsFresh, LogsAlternate, EffectsMatch, EventsMatch, OriginsMatch, Settles, RevisionsBounded;
    FailuresKeepBounds(l, key);
    FailuresSettle(l, key);
    EventsSettle(l, CommitRetry(l, key), key);
    OriginsSettle(l, CommitRetry(l, key), key);
    SameLog(l, CommitRetry(l, key));
    SameEffects(l, CommitRetry(l, key));
  }

  lemma DeadLetterKeepsLedger(l: Ledger, key: EventKey)
    requires LedgerOk(l) && key in l.events && l.events[key].status != Applied
    ensures LedgerOk(CommitDeadLetter(l, key))
  {
    hide TombstonesMatch, CrystalsFresh, LogsAlternate, EffectsMatch, EventsMatch, OriginsMatch, Settles, RevisionsBounded;
    FailuresKeepBounds(l, key);
    FailuresSettle(l, key);
    EventsSettle(l, CommitDeadLetter(l, key), key);
    OriginsSettle(l, CommitDeadLetter(l, key), key);
    SameLog(l, CommitDeadLetter(l, key));
    SameEffects(l, CommitDeadLetter(l, key));
  }

  lemma SubmitKeepsLedger(l: Ledger, key: EventKey, e: Event)
    requires LedgerOk(l) && key !in l.events && e.status == Pending && e.backendRef.None? && e.result.None?
    ensures LedgerOk(CommitSubmit(l, key, e))
  {
    hide TombstonesMatch, CrystalsFresh, LogsAlternate, EffectsMatch, EventsMatch, OriginsMatch;
    SubmitKeepsEvents(l, key, e);
    var l' := CommitSubmit(l, key, e);
    SameLog(l, l');
    SameEffects(l, l');
  }

  lemma SubmitKeepsEvents(l: Ledger, key: EventKey, e: Event)
    requires EventsMatch(l) && OriginsMatch(l)
    requires key !in l.events && e.status == Pending && e.backendRef.None? && e.result.None?
    ensures EventsMatch(CommitSubmit(l, key, e)) && OriginsMatch(CommitSubmit(l, key, e))
  {
    hide OriginsMatch;
    var l' := CommitSubmit(l, key, e);
    forall v | 0 <= v < |l.reviews| ensures Reviewed(l'.events, l.reviews[v].origin) {
      assert Reviewed(l.events, l.reviews[v].origin);
    }
    SubmitKeepsOrigins(l, key, e);
    hide Reviewed;
  }

  lemma SubmitKeepsOrigins(l: Ledger, key: EventKey, e: Event)
    requires OriginsMatch(l) && key !in l.events
    ensures OriginsMatch(CommitSubmit(l, key, e))
  {
  }

  // ---- crystals

  lemma RebuildKeepsLedger(l: Ledger, binding: ScopeBinding)
    requires LedgerOk(l)
    ensures LedgerOk(CommitRebuild(l, binding, Sources(l.rows, binding)))
  {
    hide TombstonesMatch, LogsAlternate, EffectsMatch, EventsMatch, OriginsMatch;
    var l' := CommitRebuild(l, binding, Sources(l.rows, binding));
    StatusKeepsEvents(l, l');
    SameLog(l, l');
    SameEffects(l, l');
  }
}
