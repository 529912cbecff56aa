/** Fact ids are serial, so creating one fact earlier shifts the ids of the others. A renaming says how; every ledger
    transaction and guard treats renamed ids alike. */
module Renaming {
  import opened Names
  import opened Ledger
  import opened Lifecycle

  /** Cycle(first, last) moves the fact `last` forward to `first` and those in between back by one. */
  datatype Renaming = Same | Cycle(first: nat, last: nat)

  function Name(m: Renaming, i: FactId): FactId {
    match m
    case Same => i
    case Cycle(first, last) => if i == last && first <= last then first else if first <= i < last then i + 1 else i
  }

  function Back(m: Renaming, i: FactId): FactId {
    match m
    case Same => i
    case Cycle(first, last) => if i == first && first <= last then last else if first < i <= last then i - 1 else i
  }

  lemma NameIsBijective(m: Renaming, i: FactId)
    ensures Back(m, Name(m, i)) == i && Name(m, Back(m, i)) == i
  {
  }

  lemma NamesDiffer(m: Renaming, i: FactId, j: FactId)
    ensures Name(m, i) == Name(m, j) <==> i == j
  {
    NameIsBijective(m, i);
    NameIsBijective(m, j);
  }

  lemma Bijective(m: Renaming)
    ensures forall i: FactId :: Back(m, Name(m, i)) == i
    ensures forall i: FactId :: Name(m, Back(m, i)) == i
  {
    forall i: FactId ensures Back(m, Name(m, i)) == i { NameIsBijective(m, i); }
    forall i: FactId ensures Name(m, Back(m, i)) == i { NameIsBijective(m, i); }
  }

  // ---- the tables

  function NameOpt(m: Renaming, ref: Option<FactId>): Option<FactId> {
    match ref case None => None case Some(i) => Some(Name(m, i))
  }

  function NameSet(m: Renaming, refs: set<FactId>): set<FactId> {
    set r | r in refs :: Name(m, r)
  }

  function NameRow(m: Renaming, row: Row): Row {
    row.(supersededBy := NameOpt(m, row.supersededBy))
  }

  function NameRows(m: Renaming, rows: map<FactId, Row>): map<FactId, Row> {
    map k | k in NameSet(m, rows.Keys) && Back(m, k) in rows :: NameRow(m, rows[Back(m, k)])
  }

  function NameTombstones(m: Renaming, ts: map<FactId, Tombstone>): map<FactId, Tombstone> {
    map k | k in NameSet(m, ts.Keys) && Back(m, k) in ts :: ts[Back(m, k)]
  }

  function NameEvents(m: Renaming, events: map<EventKey, Event>): map<EventKey, Event> {
    map k | k in events :: events[k].(backendRef := NameOpt(m, events[k].backendRef))
  }

  function NameReceipts(m: Renaming, receipts: map<EventKey, Receipt>): map<EventKey, Receipt> {
    map k | k in receipts :: receipts[k].(backendRef := NameOpt(m, receipts[k].backendRef))
  }

  function NameExternals(m: Renaming, externals: map<ExternalKey, External>): map<ExternalKey, External> {
    map x | x in externals :: externals[x].(backendRef := NameOpt(m, externals[x].backendRef))
  }

  function NameOp(m: Renaming, o: Op): Op {
    o.(ref := NameOpt(m, o.ref), target := NameOpt(m, o.target))
  }

  function NameOps(m: Renaming, ops: seq<Op>): (named: seq<Op>)
    ensures |named| == |ops|
  {
    seq(|ops|, i requires 0 <= i < |ops| => NameOp(m, ops[i]))
  }

  function NameOrigins(m: Renaming, origins: map<EventKey, FactId>): map<EventKey, FactId> {
    map k | k in origins :: Name(m, origins[k])
  }

  function NameCrystals(m: Renaming, crystals: map<ScopeBinding, Crystal>): map<ScopeBinding, Crystal> {
    map b | b in crystals :: crystals[b].(refs := NameSet(m, crystals[b].refs))
  }

  function NameLedger(m: Renaming, l: Ledger): Ledger {
    l.(events := NameEvents(m, l.events), receipts := NameReceipts(m, l.receipts), ops := NameOps(m, l.ops),
       rows := NameRows(m, l.rows), rowByOrigin := NameOrigins(m, l.rowByOrigin), tombstones := NameTombstones(m, l.tombstones),
       crystals := NameCrystals(m, l.crystals), externals := NameExternals(m, l.externals))
  }

  // ---- rows and tombstones, whose keys are ids

  lemma RowsNamed(m: Renaming, rows: map<FactId, Row>)
    ensures forall r: FactId :: r in rows <==> Name(m, r) in NameRows(m, rows)
    ensures forall r <- rows :: Name(m, r) in NameRows(m, rows) && NameRows(m, rows)[Name(m, r)] == NameRow(m, rows[r])
    ensures forall k <- NameRows(m, rows) :: Back(m, k) in rows && Name(m, Back(m, k)) == k
  {
    Bijective(m);
    hide Name, Back, NameRow;
  }

  lemma RowUpdateNamed(m: Renaming, rows: map<FactId, Row>, r: FactId, row: Row)
    ensures NameRows(m, rows[r := row]) == NameRows(m, rows)[Name(m, r) := NameRow(m, row)]
  {
    Bijective(m);
    hide Name, Back, NameRow;
    var a, b := NameRows(m, rows[r := row]), NameRows(m, rows)[Name(m, r) := NameRow(m, row)];
    forall k: FactId ensures k in a <==> k in b { assert Name(m, Back(m, k)) == k; }
    forall k <- a ensures a[k] == b[k] { assert Name(m, Back(m, k)) == k; }
  }

  lemma TombstonesNamed(m: Renaming, ts: map<FactId, Tombstone>)
    ensures forall r: FactId :: r in ts <==> Name(m, r) in NameTombstones(m, ts)
    ensures forall r <- ts :: Name(m, r) in NameTombstones(m, ts) && NameTombstones(m, ts)[Name(m, r)] == ts[r]
  {
    Bijective(m);
    hide Name, Back;
  }

  lemma TombstoneUpdateNamed(m: Renaming, ts: map<FactId, Tombstone>, r: FactId, t: Tombstone)
    ensures NameTombstones(m, ts[r := t]) == NameTombstones(m, ts)[Name(m, r) := t]
  {
    Bijective(m);
    hide Name, Back;
    var a, b := NameTombstones(m, ts[r := t]), NameTombstones(m, ts)[Name(m, r) := t];
    forall k: FactId ensures k in a <==> k in b { assert Name(m, Back(m, k)) == k; }
    forall k <- a ensures a[k] == b[k] { assert Name(m, Back(m, k)) == k; }
  }

  lemma SetStatusNamed(m: Renaming, rows: map<FactId, Row>, ref: FactId, tenant: string, user: string, status: RowStatus,
                       newer: Option<FactId>, revision: nat)
    ensures SetStatus(NameRows(m, rows), Name(m, ref), tenant, user, status, NameOpt(m, newer), revision)
         == NameRows(m, SetStatus(rows, ref, tenant, user, status, newer, revision))
  {
    RowsNamed(m, rows);
    if ref in rows { RowUpdateNamed(m, rows, ref, rows[ref].(status := status, supersededBy := newer, updated := revision)); }
    hide Name, NameRows;
  }

  lemma PutTombstoneNamed(m: Renaming, ts: map<FactId, Tombstone>, ref: FactId, tenant: string, user: string, revision: nat)
    ensures PutTombstone(NameTombstones(m, ts), Name(m, ref), tenant, user, revision)
         == NameTombstones(m, PutTombstone(ts, ref, tenant, user, revision))
  {
    TombstonesNamed(m, ts);
    TombstoneUpdateNamed(m, ts, ref, if ref in ts then ts[ref].(deleted := revision, revoked := None)
                                     else Tombstone(tenant, user, revision, None));
    hide Name, NameTombstones;
  }

  lemma RevocableNamed(m: Renaming, ts: map<FactId, Tombstone>, ref: FactId, tenant: string, user: string)
    ensures Revocable(NameTombstones(m, ts), Name(m, ref), tenant, user) <==> Revocable(ts, ref, tenant, user)
  {
    TombstonesNamed(m, ts);
    hide Name, NameTombstones;
  }

  lemma SetsNamed(m: Renaming, refs: set<FactId>)
    ensures forall r: FactId :: r in refs <==> Name(m, r) in NameSet(m, refs)
    ensures forall k <- NameSet(m, refs) :: Back(m, k) in refs && Name(m, Back(m, k)) == k
    ensures |NameSet(m, refs)| == |refs|
  {
    Bijective(m);
    SizeNamed(m, refs);
    hide Name, Back;
  }

  lemma {:induction false} SizeNamed(m: Renaming, refs: set<FactId>)
    ensures |NameSet(m, refs)| == |refs|
    decreases refs
  {
    if refs != {} {
      var r :| r in refs;
      SizeNamed(m, refs - {r});
      forall x <- refs ensures Name(m, x) == Name(m, r) <==> x == r { NamesDiffer(m, x, r); }
      assert NameSet(m, refs) == NameSet(m, refs - {r}) + {Name(m, r)};
    }
  }

  lemma SourcesNamed(m: Renaming, rows: map<FactId, Row>, binding: ScopeBinding)
    ensures Sources(NameRows(m, rows), binding) == NameSet(m, Sources(rows, binding))
  {
    RowsNamed(m, rows);
    Bijective(m);
    hide Name, Back, NameRows;
    var a, b := Sources(NameRows(m, rows), binding), NameSet(m, Sources(rows, binding));
    forall k | k in a ensures k in b { assert Name(m, Back(m, k)) == k && Back(m, k) in Sources(rows, binding); }
  }

  lemma ConflictsNamed(m: Renaming, rows: map<FactId, Row>, binding: ScopeBinding, keys: SemanticKeys)
    ensures FindConflicts(NameRows(m, rows), binding, keys) == NameSet(m, FindConflicts(rows, binding, keys))
  {
    RowsNamed(m, rows);
    Bijective(m);
    hide Name, Back, NameRows;
    var a, b := FindConflicts(NameRows(m, rows), binding, keys), NameSet(m, FindConflicts(rows, binding, keys));
    forall k | k in a ensures k in b { assert Name(m, Back(m, k)) == k && Back(m, k) in FindConflicts(rows, binding, keys); }
  }

  // ---- the other tables

  lemma MarkStaleNamed(m: Renaming, crystals: map<ScopeBinding, Crystal>, binding: ScopeBinding)
    ensures MarkStale(NameCrystals(m, crystals), binding) == NameCrystals(m, MarkStale(crystals, binding))
  {
  }

  lemma MarkStaleForNamed(m: Renaming, crystals: map<ScopeBinding, Crystal>, rows: map<FactId, Row>, ref: FactId)
    ensures MarkStaleFor(NameCrystals(m, crystals), NameRows(m, rows), Name(m, ref)) == NameCrystals(m, MarkStaleFor(crystals, rows, ref))
  {
    RowsNamed(m, rows);
    if ref in rows { MarkStaleNamed(m, crystals, rows[ref].binding); }
    hide Name, NameRows, NameCrystals, MarkStale;
  }

  lemma RegisterNamed(m: Renaming, externals: map<ExternalKey, External>, key: EventKey, e: Event, ref: Option<FactId>)
    ensures RegisterExternal(NameExternals(m, externals), key, e.(backendRef := NameOpt(m, e.backendRef)), NameOpt(m, ref))
         == NameExternals(m, RegisterExternal(externals, key, e, ref))
  {
  }

  lemma RedirectedNamed(m: Renaming, externals: map<ExternalKey, External>, origin: EventKey, ref: FactId)
    ensures Redirected(NameExternals(m, externals), origin, Name(m, ref)) == NameExternals(m, Redirected(externals, origin, ref))
  {
  }

  lemma PutReceiptNamed(m: Renaming, receipts: map<EventKey, Receipt>, key: EventKey, r: Receipt)
    ensures PutReceipt(NameReceipts(m, receipts), key, r.(backendRef := NameOpt(m, r.backendRef)))
         == NameReceipts(m, PutReceipt(receipts, key, r))
  {
  }

  lemma ConfirmedRowsNamed(m: Renaming, rows: map<FactId, Row>, ref: FactId, row: Row, target: Option<FactId>, tenant: string,
                           user: string, revision: nat)
    ensures ConfirmedRows(NameRows(m, rows), Name(m, ref), NameRow(m, row), NameOpt(m, target), tenant, user, revision)
         == NameRows(m, ConfirmedRows(rows, ref, row, target, tenant, user, revision))
  {
    RowsNamed(m, rows);
    RowUpdateNamed(m, rows, ref, row);
    var inserted := if ref in rows then rows else rows[ref := row];
    if target.Some? { SetStatusNamed(m, inserted, target.value, tenant, user, Superseded, Some(ref), revision); }
    hide Name, NameRows, NameRow, SetStatus;
  }

  lemma ConfirmedTombstonesNamed(m: Renaming, ts: map<FactId, Tombstone>, target: Option<FactId>, tenant: string, user: string, revision: nat)
    ensures ConfirmedTombstones(NameTombstones(m, ts), NameOpt(m, target), tenant, user, revision)
         == NameTombstones(m, ConfirmedTombstones(ts, target, tenant, user, revision))
  {
    if target.Some? { PutTombstoneNamed(m, ts, target.value, tenant, user, revision); }
    hide PutTombstone, NameTombstones;
  }

  lemma SupersededByNamed(m: Renaming, rows: map<FactId, Row>, ref: FactId)
    ensures SupersededByOf(NameRows(m, rows), Name(m, ref)) == NameOpt(m, SupersededByOf(rows, ref))
  {
    RowsNamed(m, rows);
  }

  lemma RevertedRowsNamed(m: Renaming, l: Ledger, undone: Op, tenant: string, user: string)
    ensures RevertedRows(NameLedger(m, l), NameOp(m, undone), tenant, user) == NameRows(m, RevertedRows(l, undone, tenant, user))
  {
    hide NameRows, SetStatus, SupersededByOf, NameTombstones, NameEvents, NameReceipts, NameOps, NameOrigins, NameCrystals, NameExternals, Name;
    var rev := l.revision + 1;
    var archived := match undone.ref case None => l.rows
      case Some(r) => SetStatus(l.rows, r, tenant, user, Archived, SupersededByOf(l.rows, r), rev);
    if undone.ref.Some? {
      SupersededByNamed(m, l.rows, undone.ref.value);
      SetStatusNamed(m, l.rows, undone.ref.value, tenant, user, Archived, SupersededByOf(l.rows, undone.ref.value), rev);
    }
    if undone.target.Some? { SetStatusNamed(m, archived, undone.target.value, tenant, user, Active, None, rev); }
  }

  lemma RevertedTombstonesNamed(m: Renaming, l: Ledger, undone: Op, tenant: string, user: string)
    ensures RevertedTombstones(NameLedger(m, l), NameOp(m, undone), tenant, user)
         == NameTombstones(m, RevertedTombstones(l, undone, tenant, user))
  {
    hide NameRows, PutTombstone, NameTombstones, NameEvents, NameReceipts, NameOps, NameOrigins, NameCrystals, NameExternals, Name;
    var rev := l.revision + 1;
    var put := match undone.ref case None => l.tombstones case Some(r) => PutTombstone(l.tombstones, r, tenant, user, rev);
    if undone.ref.Some? { PutTombstoneNamed(m, l.tombstones, undone.ref.value, tenant, user, rev); }
    if undone.target.Some? {
      var t := undone.target.value;
      RevocableNamed(m, put, t, tenant, user);
      TombstonesNamed(m, put);
      if t in put { TombstoneUpdateNamed(m, put, t, put[t].(revoked := Some(rev))); }
    }
  }

  function NameEvent(m: Renaming, e: Event): Event {
    e.(backendRef := NameOpt(m, e.backendRef))
  }

  lemma EventUpdateNamed(m: Renaming, events: map<EventKey, Event>, key: EventKey, e: Event)
    ensures NameEvents(m, events[key := e]) == NameEvents(m, events)[key := NameEvent(m, e)]
  {
  }

  lemma EventNamed(m: Renaming, events: map<EventKey, Event>, key: EventKey)
    ensures key in NameEvents(m, events) <==> key in events
    ensures key in events ==> NameEvents(m, events)[key] == NameEvent(m, events[key])
  {
  }

  lemma OriginUpdateNamed(m: Renaming, origins: map<EventKey, FactId>, key: EventKey, ref: FactId)
    ensures NameOrigins(m, origins[key := ref]) == NameOrigins(m, origins)[key := Name(m, ref)]
    ensures forall k :: k in NameOrigins(m, origins) <==> k in origins
  {
  }

  lemma AppendNamed(m: Renaming, ops: seq<Op>, o: Op)
    ensures NameOps(m, ops + [o]) == NameOps(m, ops) + [NameOp(m, o)]
  {
    assert NameOps(m, ops + [o]) == NameOps(m, ops) + [NameOp(m, o)];
  }

  lemma ConfirmNamed(m: Renaming, l: Ledger, review: nat, idem: string, action: Action, payload: Payload, ref: FactId, target: Option<FactId>)
    requires review < |l.reviews| && l.reviews[review].origin in l.events
    ensures l.reviews[review].origin in NameLedger(m, l).events
    ensures CommitConfirm(NameLedger(m, l), review, idem, action, payload, Name(m, ref), NameOpt(m, target))
         == NameLedger(m, CommitConfirm(l, review, idem, action, payload, ref, target))
  {
    hide NameRows, NameTombstones, NameEvents, NameReceipts, NameOps, NameOrigins, NameCrystals, NameExternals, Name,
      ConfirmedRows, ConfirmedTombstones, Redirected, MarkStale;
    var c, rev := l.reviews[review], l.revision + 1;
    EventNamed(m, l.events, c.origin);
    var e := l.events[c.origin];
    var binding := BindingOf(c.origin, e, payload);
    var row := Row(binding, c.origin, payload.keys, payload.instruction, false, Active, None, rev);
    AppendNamed(m, l.ops, Op(review, idem, e.tenant, e.user, e.workspace, action, c.revision, Some(ref), target, None));
    ConfirmedRowsNamed(m, l.rows, ref, row, target, e.tenant, e.user, rev);
    ConfirmedTombstonesNamed(m, l.tombstones, target, e.tenant, e.user, rev);
    OriginUpdateNamed(m, l.rowByOrigin, c.origin, ref);
    RowIn(m, l.rows, ref);
    MarkStaleNamed(m, l.crystals, binding);
    EventUpdateNamed(m, l.events, c.origin, e.(backendRef := Some(ref), result := Some(CandidateConfirmed), revision := Some(rev)));
    RedirectedNamed(m, l.externals, c.origin, ref);
  }

  lemma RowIn(m: Renaming, rows: map<FactId, Row>, r: FactId)
    ensures r in rows <==> Name(m, r) in NameRows(m, rows)
    ensures r in rows ==> NameRows(m, rows)[Name(m, r)] == NameRow(m, rows[r])
  {
    RowsNamed(m, rows);
  }

  lemma CloseNamed(m: Renaming, l: Ledger, review: nat, idem: string, action: Action)
    requires review < |l.reviews| && l.reviews[review].origin in l.events
    ensures l.reviews[review].origin in NameLedger(m, l).events
    ensures CommitClose(NameLedger(m, l), review, idem, action) == NameLedger(m, CommitClose(l, review, idem, action))
  {
    hide NameRows, NameTombstones, NameEvents, NameReceipts, NameOps, NameOrigins, NameCrystals, NameExternals, Name;
    var c := l.reviews[review];
    EventNamed(m, l.events, c.origin);
    var e := l.events[c.origin];
    AppendNamed(m, l.ops, Op(review, idem, e.tenant, e.user, e.workspace, action, c.revision, None, None, None));
  }

  lemma RevertNamed(m: Renaming, l: Ledger, review: nat, idem: string, opId: nat)
    requires review < |l.reviews| && l.reviews[review].origin in l.events && opId < |l.ops|
    ensures l.reviews[review].origin in NameLedger(m, l).events
    ensures CommitRevert(NameLedger(m, l), review, idem, opId) == NameLedger(m, CommitRevert(l, review, idem, opId))
  {
    hide NameRows, NameTombstones, NameEvents, NameReceipts, NameOrigins, NameCrystals, NameExternals, Name, RevertedRows, RevertedTombstones,
      MarkStaleFor;
    var c, undone := l.reviews[review], l.ops[opId];
    EventNamed(m, l.events, c.origin);
    var e := l.events[c.origin];
    assert NameOps(m, l.ops)[opId] == NameOp(m, undone);
    hide NameOps;
    AppendNamed(m, l.ops, Op(review, idem, e.tenant, e.user, e.workspace, Revert, c.revision, undone.ref, undone.target, Some(opId)));
    RevertedRowsNamed(m, l, undone, e.tenant, e.user);
    RevertedTombstonesNamed(m, l, undone, e.tenant, e.user);
    RevertedCrystalsNamed(m, l.crystals, l.rows, undone);
  }

  lemma RevertedCrystalsNamed(m: Renaming, crystals: map<ScopeBinding, Crystal>, rows: map<FactId, Row>, undone: Op)
    ensures RevertedCrystals(NameCrystals(m, crystals), NameRows(m, rows), NameOp(m, undone))
         == NameCrystals(m, RevertedCrystals(crystals, rows, undone))
  {
    hide NameRows, NameCrystals, MarkStaleFor, Name;
    var stale := match undone.ref case None => crystals case Some(r) => MarkStaleFor(crystals, rows, r);
    if undone.ref.Some? { MarkStaleForNamed(m, crystals, rows, undone.ref.value); }
    if undone.target.Some? { MarkStaleForNamed(m, stale, rows, undone.target.value); }
  }

  lemma ForgetNamed(m: Renaming, l: Ledger, ref: FactId, tenant: string, user: string)
    requires ref in l.rows
    ensures Name(m, ref) in NameLedger(m, l).rows
    ensures CommitForget(NameLedger(m, l), Name(m, ref), tenant, user) == NameLedger(m, CommitForget(l, ref, tenant, user))
  {
    hide NameRows, NameTombstones, NameEvents, NameReceipts, NameOps, NameOrigins, NameCrystals, NameExternals, Name, PutTombstone, MarkStale;
    RowIn(m, l.rows, ref);
    RowUpdateNamed(m, l.rows, ref, l.rows[ref].(status := Archived, updated := l.revision + 1));
    PutTombstoneNamed(m, l.tombstones, ref, tenant, user, l.revision + 1);
    MarkStaleNamed(m, l.crystals, l.rows[ref].binding);
  }

  lemma RebuildNamed(m: Renaming, l: Ledger, binding: ScopeBinding, refs: set<FactId>)
    ensures CommitRebuild(NameLedger(m, l), binding, NameSet(m, refs)) == NameLedger(m, CommitRebuild(l, binding, refs))
  {
    hide NameRows, NameTombstones, NameEvents, NameReceipts, NameOps, NameOrigins, NameExternals, NameSet;
    var c := Crystal(true, refs, l.revision + 1);
    assert NameCrystals(m, l.crystals[binding := c]) == NameCrystals(m, l.crystals)[binding := c.(refs := NameSet(m, refs))];
  }

  lemma AppliedNamed(m: Renaming, l: Ledger, key: EventKey, ref: FactId)
    requires key in l.events
    ensures key in NameLedger(m, l).events
    ensures CommitApplied(NameLedger(m, l), key, Name(m, ref)) == NameLedger(m, CommitApplied(l, key, ref))
  {
    hide NameRows, NameTombstones, NameEvents, NameReceipts, NameOps, NameOrigins, NameCrystals, NameExternals, Name, RegisterExternal,
      PutReceipt, MarkStale;
    EventNamed(m, l.events, key);
    var e, rev := l.events[key], l.revision + 1;
    var binding := BindingOf(key, e, e.payload);
    EventUpdateNamed(m, l.events, key, e.(status := Applied, result := Some(CandidateConfirmed), backendRef := Some(ref), revision := Some(rev)));
    PutReceiptNamed(m, l.receipts, key, Receipt(rev, CandidateConfirmed, Some(ref), rev));
    RowIn(m, l.rows, ref);
    RowUpdateNamed(m, l.rows, ref, Row(binding, key, e.payload.keys, false, false, Active, None, rev));
    OriginUpdateNamed(m, l.rowByOrigin, key, ref);
    MarkStaleNamed(m, l.crystals, binding);
    RegisterNamed(m, l.externals, key, e, Some(ref));
  }

  lemma ReviewNamed(m: Renaming, l: Ledger, key: EventKey)
    requires key in l.events
    ensures key in NameLedger(m, l).events && CommitReview(NameLedger(m, l), key) == NameLedger(m, CommitReview(l, key))
  {
    hide NameRows, NameTombstones, NameEvents, NameReceipts, NameOps, NameOrigins, NameCrystals, NameExternals, Name, RegisterExternal, PutReceipt;
    EventNamed(m, l.events, key);
    var e, rev := l.events[key], l.revision + 1;
    EventUpdateNamed(m, l.events, key, e.(status := Applied, result := Some(CandidateCreated), revision := Some(rev)));
    PutReceiptNamed(m, l.receipts, key, Receipt(rev, CandidateCreated, None, rev));
    RegisterNamed(m, l.externals, key, e, None);
  }

  lemma DuplicateNamed(m: Renaming, l: Ledger, key: EventKey, ref: Option<FactId>)
    requires key in l.events
    ensures key in NameLedger(m, l).events
    ensures CommitDuplicate(NameLedger(m, l), key, NameOpt(m, ref)) == NameLedger(m, CommitDuplicate(l, key, ref))
  {
    hide NameRows, NameTombstones, NameEvents, NameReceipts, NameOps, NameOrigins, NameCrystals, NameExternals, Name, PutReceipt;
    EventNamed(m, l.events, key);
    var e, rev := l.events[key], l.revision + 1;
    EventUpdateNamed(m, l.events, key, e.(status := Applied, result := Some(SourceDuplicate), backendRef := ref, revision := Some(rev)));
    PutReceiptNamed(m, l.receipts, key, Receipt(rev, SourceDuplicate, ref, rev));
  }

  lemma FailuresNamed(m: Renaming, l: Ledger, key: EventKey)
    requires key in l.events
    ensures key in NameLedger(m, l).events
    ensures CommitRetry(NameLedger(m, l), key) == NameLedger(m, CommitRetry(l, key))
    ensures CommitDeadLetter(NameLedger(m, l), key) == NameLedger(m, CommitDeadLetter(l, key))
  {
    hide NameRows, NameTombstones, NameEvents, NameReceipts, NameOps, NameOrigins, NameCrystals, NameExternals, Name;
    EventNamed(m, l.events, key);
    var e := l.events[key];
    EventUpdateNamed(m, l.events, key, e.(status := Retryable, retries := e.retries + 1));
    EventUpdateNamed(m, l.events, key, e.(status := DeadLetter));
  }

  lemma SubmitNamed(m: Renaming, l: Ledger, key: EventKey, e: Event)
    requires e.backendRef.None?
    ensures CommitSubmit(NameLedger(m, l), key, e) == NameLedger(m, CommitSubmit(l, key, e))
  {
    hide NameRows, NameTombstones, NameEvents, NameReceipts, NameOps, NameOrigins, NameCrystals, NameExternals, Name;
    EventUpdateNamed(m, l.events, key, e);
  }

  // ---- the guards

  function NameResolve(m: Renaming, q: ResolveRequest): ResolveRequest {
    q.(target := NameOpt(m, q.target))
  }

  function NameRequest(m: Renaming, r: Request): Request {
    match r
    case Resolving(q) => Resolving(NameResolve(m, q))
    case Forgetting(who, ref) => Forgetting(who, Name(m, ref))
    case _ => r
  }

  lemma ExistingOpNamed(m: Renaming, l: Ledger, idem: string, who: Principal)
    ensures ExistingOp(NameLedger(m, l), idem, who) == ExistingOp(l, idem, who)
  {
    hide NameRows, NameTombstones, NameEvents, NameReceipts, NameOrigins, NameCrystals, NameExternals;
  }

  lemma CandidateProblemNamed(m: Renaming, l: Ledger, review: nat, who: Principal, expected: nat)
    ensures CandidateProblem(NameLedger(m, l), review, who, expected) == CandidateProblem(l, review, who, expected)
  {
    if review < |l.reviews| { EventNamed(m, l.events, l.reviews[review].origin); }
    hide NameRows, NameTombstones, NameEvents, NameReceipts, NameOps, NameOrigins, NameCrystals, NameExternals;
  }

  lemma ResolveStopNamed(m: Renaming, l: Ledger, q: ResolveRequest)
    ensures ResolveStop(NameLedger(m, l), NameResolve(m, q)).None? <==> ResolveStop(l, q).None?
    ensures q.review < |l.reviews| && l.reviews[q.review].origin in l.events ==>
      && l.reviews[q.review].origin in NameLedger(m, l).events && ResolvedPayload(NameLedger(m, l), NameResolve(m, q)) == ResolvedPayload(l, q)
  {
    hide NameRows, NameTombstones, NameEvents, NameReceipts, NameOps, NameOrigins, NameCrystals, NameExternals, Name, CandidateProblem, ExistingOp,
      ConflictsFor, NameSet;
    ExistingOpNamed(m, l, q.idem, q.who);
    CandidateProblemNamed(m, l, q.review, q.who, q.expected);
    CandidateHasEvent(l, q);
    if q.review < |l.reviews| && l.reviews[q.review].origin in l.events {
      EventNamed(m, l.events, l.reviews[q.review].origin);
      ConflictsForNamed(m, l, q);
      NoneNamed(m, ConflictsFor(l, q));
      if q.target.Some? {
        SetHas(m, ConflictsFor(l, q), q.target.value);
        ConflictsAreRows(l, q);
        RowIn(m, l.rows, q.target.value);
      }
    }
  }

  lemma CandidateHasEvent(l: Ledger, q: ResolveRequest)
    ensures CandidateProblem(l, q.review, q.who, q.expected).None? ==> q.review < |l.reviews| && l.reviews[q.review].origin in l.events
  {
  }

  lemma ConflictsAreRows(l: Ledger, q: ResolveRequest)
    requires q.review < |l.reviews| && l.reviews[q.review].origin in l.events
    ensures ConflictsFor(l, q) <= l.rows.Keys
  {
  }

  lemma ConflictsForNamed(m: Renaming, l: Ledger, q: ResolveRequest)
    requires q.review < |l.reviews| && l.reviews[q.review].origin in l.events
    ensures l.reviews[q.review].origin in NameLedger(m, l).events
    ensures ConflictsFor(NameLedger(m, l), NameResolve(m, q)) == NameSet(m, ConflictsFor(l, q))
  {
    hide NameRows, NameTombstones, NameEvents, NameReceipts, NameOps, NameOrigins, NameCrystals, NameExternals, Name, FindConflicts, NameSet;
    var origin := l.reviews[q.review].origin;
    EventNamed(m, l.events, origin);
    ConflictsNamed(m, l.rows, BindingOf(origin, l.events[origin], ResolvedPayload(l, q)), ResolvedPayload(l, q).keys);
  }

  lemma NoneNamed(m: Renaming, refs: set<FactId>)
    ensures NameSet(m, refs) == {} <==> refs == {}
  {
    hide Name;
    if refs != {} {
      var r :| r in refs;
      assert Name(m, r) in NameSet(m, refs);
    }
  }

  lemma SetHas(m: Renaming, refs: set<FactId>, r: FactId)
    ensures Name(m, r) in NameSet(m, refs) <==> r in refs
  {
    SetsNamed(m, refs);
  }

  lemma ConfirmRefusalNamed(m: Renaming, l: Ledger, q: ResolveRequest, ref: FactId)
    requires q.review < |l.reviews| && l.reviews[q.review].origin in l.events
    ensures l.reviews[q.review].origin in NameLedger(m, l).events
    ensures ConfirmRefusal(NameLedger(m, l), NameResolve(m, q), Name(m, ref)) == ConfirmRefusal(l, q, ref)
  {
    hide NameRows, NameTombstones, NameEvents, NameReceipts, NameOps, NameOrigins, NameCrystals, NameExternals, Name;
    EventNamed(m, l.events, l.reviews[q.review].origin);
    RowIn(m, l.rows, ref);
    if q.target.Some? { RowIn(m, l.rows, q.target.value); }
    OriginUpdateNamed(m, l.rowByOrigin, l.reviews[q.review].origin, ref);
  }

  lemma RevertStopNamed(m: Renaming, l: Ledger, q: RevertRequest)
    ensures RevertStop(NameLedger(m, l), q) == RevertStop(l, q)
  {
    ExistingOpNamed(m, l, q.idem, q.who);
    CandidateProblemNamed(m, l, q.review, q.who, q.expected);
    CompensatedNamed(m, l, q.opId);
    assert q.opId < |l.ops| ==> NameOps(m, l.ops)[q.opId] == NameOp(m, l.ops[q.opId]);
    hide NameRows, NameTombstones, NameEvents, NameReceipts, NameOps, NameOrigins, NameCrystals, NameExternals, Name, CandidateProblem, ExistingOp,
      AlreadyCompensated;
  }

  lemma CompensatedNamed(m: Renaming, l: Ledger, opId: nat)
    ensures AlreadyCompensated(NameLedger(m, l), opId) <==> AlreadyCompensated(l, opId)
  {
    hide NameRows, NameTombstones, NameEvents, NameReceipts, NameOrigins, NameCrystals, NameExternals, Name;
    if AlreadyCompensated(l, opId) {
      var i :| 0 <= i < |l.ops| && l.ops[i].compensates == Some(opId) && l.ops[i].action == Revert;
      assert NameOps(m, l.ops)[i] == NameOp(m, l.ops[i]);
    }
    if AlreadyCompensated(NameLedger(m, l), opId) {
      var i :| 0 <= i < |l.ops| && NameOps(m, l.ops)[i].compensates == Some(opId) && NameOps(m, l.ops)[i].action == Revert;
      assert NameOps(m, l.ops)[i] == NameOp(m, l.ops[i]);
    }
  }

  lemma RevertRefusalNamed(m: Renaming, l: Ledger, q: RevertRequest)
    requires q.review < |l.reviews| && l.reviews[q.review].origin in l.events && q.opId < |l.ops|
    ensures l.reviews[q.review].origin in NameLedger(m, l).events && RevertRefusal(NameLedger(m, l), q) == RevertRefusal(l, q)
  {
    hide NameRows, NameTombstones, NameEvents, NameReceipts, NameOrigins, NameCrystals, NameExternals, Name, PutTombstone, Revocable;
    var e, undone := l.events[l.reviews[q.review].origin], l.ops[q.opId];
    var put := match undone.ref case None => l.tombstones
      case Some(r) => PutTombstone(l.tombstones, r, e.tenant, e.user, l.revision + 1);
    EventNamed(m, l.events, l.reviews[q.review].origin);
    assert NameOps(m, l.ops)[q.opId] == NameOp(m, undone);
    if undone.ref.Some? { PutTombstoneNamed(m, l.tombstones, undone.ref.value, e.tenant, e.user, l.revision + 1); }
    hide NameOps;
    if undone.target.Some? { RevocableNamed(m, put, undone.target.value, e.tenant, e.user); }
  }

  // ---- ids below the moved ones

  lemma SameLedger(l: Ledger)
    ensures NameLedger(Same, l) == l
  {
    hide NameRows, NameTombstones, NameEvents, NameReceipts, NameOps, NameOrigins, NameCrystals, NameExternals;
    SameTables(l);
    SameEvents(l);
  }

  lemma SameTables(l: Ledger)
    ensures NameRows(Same, l.rows) == l.rows && NameTombstones(Same, l.tombstones) == l.tombstones
    ensures NameOps(Same, l.ops) == l.ops && NameCrystals(Same, l.crystals) == l.crystals
  {
    forall b <- l.crystals ensures NameSet(Same, l.crystals[b].refs) == l.crystals[b].refs { }
  }

  lemma SameEvents(l: Ledger)
    ensures NameEvents(Same, l.events) == l.events && NameReceipts(Same, l.receipts) == l.receipts
    ensures NameExternals(Same, l.externals) == l.externals && NameOrigins(Same, l.rowByOrigin) == l.rowByOrigin
  {
  }
}
