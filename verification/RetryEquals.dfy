/** Crash, run, retry ends in the same stores as run, retry: exactly for reverts and forgets, and up to the serial ids
    of the facts created for confirmations, whose fact is made before those of the run instead of after them. */
module RetryEquals {
  import opened Names
  import opened GBrain
  import opened Ledger
  import opened Lifecycle
  import opened LedgerInvariants
  import opened AllRuns
  import opened StoreAgreement
  import opened CrashRecovery
  import opened RetryHeals
  import opened RetriesAmongOthers
  import opened KnownFacts
  import opened Renaming
  import opened Twins

  function NameRequests(m: Renaming, rs: seq<Request>): (named: seq<Request>)
    ensures |named| == |rs|
  {
    seq(|rs|, i requires 0 <= i < |rs| => NameRequest(m, rs[i]))
  }

  /** Every request of the run leaves the gap alone when its turn comes. */
  ghost predicate ApartRun(s: Store, rs: seq<Request>, g: Gap)
    decreases |rs|
  {
    rs == [] || (Apart(s.ledger, rs[0], g) && ApartRun(Serve(s, rs[0], 3), rs[1..], g))
  }

  // ---- both runs side by side

  /** What the two stores keep during the run. */
  ghost predicate Beside(g: Gap, s: Store, s': Store) {
    StoreOk(s) && StoreOk(s') && AllKnown(s) && TwinStores(g, s, s')
  }

  /** Every id the run will give out has its counterpart. */
  predicate RoomFor(g: Gap, n: nat, end: nat) {
    match g.m case Same => g.more == 0 case Cycle(first, last) => g.more == 1 && first <= n && end <= last
  }

  lemma ApartSpares(l: Ledger, r: Request, g: Gap)
    requires Apart(l, r, g)
    ensures Spares(l, r, g.touched)
  {
    hide Sources;
  }

  lemma NamedSpares(g: Gap, s: Store, s': Store, r: Request)
    requires TwinStores(g, s, s') && Apart(s.ledger, r, g)
    ensures Spares(s'.ledger, NameRequest(g.m, r), NameSet(g.m, g.touched))
  {
    hide Twin, Name, Sources, NameRows, NameTombstones, NameEvents, NameReceipts, NameOrigins, NameCrystals, NameExternals;
    match r
    case Resolving(p) => if p.target.Some? { SetHas(g.m, g.touched, p.target.value); }
    case Forgetting(who, ref) => SetHas(g.m, g.touched, ref);
    case Reverting(p) =>
      if p.opId < |s.ledger.ops| {
        var o := s.ledger.ops[p.opId];
        OpNamed(g.m, s.ledger, p.opId);
        if o.ref.Some? { SetHas(g.m, g.touched, o.ref.value); assert o.ref.value in RefSet(o.ref); }
        if o.target.Some? { SetHas(g.m, g.touched, o.target.value); assert o.target.value in RefSet(o.target); }
      }
    case _ =>
  }

  lemma BesideStep(g: Gap, s: Store, s': Store, r: Request, end: nat)
    requires Beside(g, s, s') && Apart(s.ledger, r, g) && RoomFor(g, |s.brain.facts|, end) && |Serve(s, r, 3).brain.facts| <= end
    ensures Beside(g, Serve(s, r, 3), Serve(s', NameRequest(g.m, r), 3)) && RoomFor(g, |Serve(s, r, 3).brain.facts|, end)
    ensures Framed(s, Serve(s, r, 3), g.touched) && Framed(s', Serve(s', NameRequest(g.m, r), 3), NameSet(g.m, g.touched))
  {
    hide StoreOk, AllKnown, TwinStores, Apart, Serve, Framed, NameRequest, Spares;
    ServeKnown(s, r, 3);
    ServeKeepsStore(s, r, 3);
    ServeKeepsStore(s', NameRequest(g.m, r), 3);
    ServeTwin(g, s, s', r);
    ApartSpares(s.ledger, r, g);
    ServeFrames(s, r, g.touched);
    NamedSpares(g, s, s', r);
    ServeFrames(s', NameRequest(g.m, r), NameSet(g.m, g.touched));
  }

  lemma {:induction false} RunGrows(s: Store, rs: seq<Request>)
    requires AllKnown(s)
    ensures |s.brain.facts| <= |After(s, rs).brain.facts|
    decreases |rs|
  {
    hide AllKnown, Serve;
    if rs != [] {
      ServeKnown(s, rs[0], 3);
      RunGrows(Serve(s, rs[0], 3), rs[1..]);
    }
  }

  lemma {:induction false} RunBeside(g: Gap, s: Store, s': Store, rs: seq<Request>, end: nat)
    requires Beside(g, s, s') && ApartRun(s, rs, g) && RoomFor(g, |s.brain.facts|, end) && |After(s, rs).brain.facts| <= end
    ensures Beside(g, After(s, rs), After(s', NameRequests(g.m, rs)))
    ensures Framed(s, After(s, rs), g.touched) && Framed(s', After(s', NameRequests(g.m, rs)), NameSet(g.m, g.touched))
    decreases |rs|
  {
    hide Beside, Apart, Serve, Framed, NameRequest, RoomFor;
    if rs == [] {
      FrameOfSame(s, g.touched);
      FrameOfSame(s', NameSet(g.m, g.touched));
    } else {
      var t, t' := Serve(s, rs[0], 3), Serve(s', NameRequest(g.m, rs[0]), 3);
      var named := NameRequests(g.m, rs);
      assert named[0] == NameRequest(g.m, rs[0]) && named[1..] == NameRequests(g.m, rs[1..]);
      BesideKnown(g, s, s');
      ServeKnown(s, rs[0], 3);
      RunGrows(t, rs[1..]);
      BesideStep(g, s, s', rs[0], end);
      RunBeside(g, t, t', rs[1..], end);
      FramedTwice(s, t, After(s, rs), g.touched);
      FramedTwice(s', t', After(s', named), NameSet(g.m, g.touched));
    }
  }

  lemma BesideKnown(g: Gap, s: Store, s': Store)
    requires Beside(g, s, s')
    ensures AllKnown(s) && StoreOk(s) && StoreOk(s') && TwinStores(g, s, s')
  {
  }

  // ---- nothing renamed

  lemma SameRequests(rs: seq<Request>)
    ensures NameRequests(Same, rs) == rs
  {
    forall i | 0 <= i < |rs| ensures NameRequest(Same, rs[i]) == rs[i] { }
  }

  lemma SameSet(refs: set<FactId>)
    ensures NameSet(Same, refs) == refs
  {
  }

  lemma SameKey(k: Key)
    ensures NameKey(Same, k) == k && BackKey(Same, k) == k
  {
  }

  lemma SameOperation(o: Operation)
    ensures NameOperation(Same, o) == o
  {
    if o.result.PageRef? { SameSet(o.result.refs); }
  }

  lemma SamePages(pages: set<Ref>)
    ensures NamePages(Same, pages) == pages
  {
    forall p | p in pages ensures NameRef(Same, p) == p { if p.PageRef? { SameSet(p.refs); } }
    forall p | p in NamePages(Same, pages) ensures p in pages { }
    forall p | p in pages ensures p in NamePages(Same, pages) { assert NameRef(Same, p) == p; }
  }

  /** Two GBrains that differ in the touched facts and in one key of the second. */
  ghost predicate Patched(b: Brain, b': Brain, touched: set<FactId>, key: Key) {
    && b'.bindings == b.bindings && b'.pages == b.pages && |b'.facts| == |b.facts|
    && (forall i | 0 <= i < |b.facts| :: b'.facts[i].source == b.facts[i].source && (i !in touched ==> b'.facts[i] == b.facts[i]))
    && key !in b.bindings && key !in b.operations && key in b'.operations
    && (forall k :: k in b'.operations <==> k == key || k in b.operations)
    && (forall k <- b.operations :: b'.operations[k] == b.operations[k] && b.operations[k].kind != TombstoneOp)
    && b'.operations[key].kind != TombstoneOp
  }

  lemma PatchedIsTwin(b: Brain, b': Brain, touched: set<FactId>, key: Key)
    requires Patched(b, b', touched, key)
    ensures Twin(Gap(Same, touched, {key}, 0), b, b')
  {
    SamePages(b.pages);
    forall k: Key ensures NameKey(Same, k) == k && BackKey(Same, k) == k { SameKey(k); }
    forall k <- b.operations ensures NameOperation(Same, b.operations[k]) == b.operations[k] { SameOperation(b.operations[k]); }
    hide NameKey, BackKey, NameOperation, NamePages;
  }

  lemma TwinIsPatched(b: Brain, b': Brain, touched: set<FactId>, key: Key)
    requires Twin(Gap(Same, touched, {key}, 0), b, b') && key in b'.operations && key !in b'.bindings
    ensures Patched(b, b', touched, key)
  {
    hide NameKey, BackKey, NameOperation, NamePages;
    SamePages(b.pages);
    forall k: Key ensures NameKey(Same, k) == k && BackKey(Same, k) == k { SameKey(k); }
    forall k <- b.operations ensures NameOperation(Same, b.operations[k]) == b.operations[k] { SameOperation(b.operations[k]); }
  }

  /** Two patches of one GBrain with the same touched facts and the same record are equal. */
  lemma PatchesAgree(b: Brain, c: Brain, d: Brain, touched: set<FactId>, key: Key)
    requires Patched(b, c, touched, key) && Patched(b, d, touched, key) && c.operations[key] == d.operations[key]
    requires forall i <- touched | i < |b.facts| :: c.facts[i] == d.facts[i]
    ensures c == d
  {
    assert c.facts == d.facts;
    assert c.operations == d.operations;
  }

  // ---- reverts

  function RevertGap(l: Ledger, q: RevertRequest): Gap
    requires q.opId < |l.ops|
  {
    Gap(Same, RefSet(l.ops[q.opId].ref) + RefSet(l.ops[q.opId].target), {RevertKey(q, l.ops[q.opId])}, 0)
  }

  /** What the facts and keys of an operation must be like for GBrain to undo it. */
  ghost predicate Undoable(b: Brain, q: RevertRequest, o: Op) {
    && (o.action.CreatesFact() <==> o.ref.Some?) && (o.action == Supersession <==> o.target.Some?)
    && o.ref.Some? && o.ref.value < |b.facts| && RevertKey(q, o) !in b.operations && RevertKey(q, o) !in b.bindings
    && (o.target.Some? ==>
          && o.target != o.ref && o.target.value < |b.facts|
          && b.facts[o.target.value].source == b.facts[o.ref.value].source
          && b.facts[o.target.value].supersededBy == o.ref && !b.facts[o.target.value].expired)
    && (forall k <- b.operations :: b.operations[k].kind != TombstoneOp)
  }

  lemma RevertPatches(b: Brain, q: RevertRequest, o: Op)
    requires Undoable(b, q, o)
    ensures var step := RevertBrain(b, q, o);
      && step.reply.Ok? && Reverted(b, step.brain, o)
      && Patched(b, step.brain, RefSet(o.ref) + RefSet(o.target), RevertKey(q, o))
      && step.brain.operations[RevertKey(q, o)] == RevertRecord(o)
  {
    assert o.ref.value in RefSet(o.ref) && (o.target.Some? ==> o.target.value in RefSet(o.target));
  }

  lemma CrashedIsUndoable(s: Store, q: RevertRequest, except: set<FactId>, open: set<Pair>)
    requires Consistent(s, except, open) && RevertStop(s.ledger, q).None? && q.idem !in s.ledger.opByKey
    requires RevertTouches(s.ledger, q) !! except && (q.review, q.idem) !in open
    requires s.ledger.ops[q.opId].ref.Some? && RevertOp(s, q, 1).answer == Crashed
    ensures var o := s.ledger.ops[q.opId];
      && Undoable(s.brain, q, o) && RefSet(o.ref) + RefSet(o.target) <= s.ledger.rows.Keys
      && RevertOp(s, q, 1).store == s.(brain := RevertBrain(s.brain, q, o).brain)
  {
    hide LedgerOk, KeysMatch, Agree, LogsAlternate, OriginsMatch, EffectsMatch, EventsMatch, TombstonesMatch, CrystalsFresh,
      RevertStop, KeysSpent, RevertOp, RevertBrain, Reverted;
    var l, b, o := s.ledger, s.brain, s.ledger.ops[q.opId];
    CrashedRevertStore(s, q);
    LedgerParts(l);
    RevertedFacts(l, b, q, except);
    RevertKeyIsFresh(l, b, q, o, open);
    RevertGoesThrough(b, q, o);
  }

  /** The facts of the gap have not moved, so the operation can be undone later as well as now. */
  lemma StillUndoable(g: Gap, s: Store, s': Store, c: Store, q: RevertRequest, o: Op)
    requires Undoable(s.brain, q, o) && g == Gap(Same, RefSet(o.ref) + RefSet(o.target), {RevertKey(q, o)}, 0)
    requires Framed(s, s', g.touched) && Twin(g, s'.brain, c.brain)
    ensures Undoable(s'.brain, q, o)
    ensures forall i <- g.touched :: i < |s.brain.facts| && i < |s'.brain.facts| && s'.brain.facts[i] == s.brain.facts[i]
  {
    assert o.ref.value in RefSet(o.ref) && (o.target.Some? ==> o.target.value in RefSet(o.target));
    hide RevertKey;
  }

  /** Crash, run, retry and run, retry leave the same two stores. The request still passes its guards at the retry; when
      it does not, the retry does nothing on either side. */
  lemma RevertRetryEquals(s: Store, q: RevertRequest, rs: seq<Request>, except: set<FactId>, open: set<Pair>)
    requires Consistent(s, except, open) && AllKnown(s) && RevertStop(s.ledger, q).None? && q.idem !in s.ledger.opByKey
    requires RevertTouches(s.ledger, q) !! except && (q.review, q.idem) !in open
    requires s.ledger.ops[q.opId].ref.Some? && RevertOp(s, q, 1).answer == Crashed
    requires ApartRun(s, rs, RevertGap(s.ledger, q)) && RevertStop(After(s, rs).ledger, q).None?
    ensures RevertOp(After(RevertOp(s, q, 1).store, rs), q, 3).store == RevertOp(After(s, rs), q, 3).store
  {
    hide Consistent, AllKnown, RevertStop, RevertOp, RevertBrain, ApartRun, After, Undoable, Patched, Twin, Framed, Reverted, StoreOk, RevertKey,
      NameLedger, RevertRecord;
    var o, c, g := s.ledger.ops[q.opId], RevertOp(s, q, 1).store, RevertGap(s.ledger, q);
    ConsistentStore(s, except, open);
    CrashedIsUndoable(s, q, except, open);
    CrashedIsBeside(s, c, q, o, g);
    SameRequests(rs);
    RunBeside(g, s, c, rs, |After(s, rs).brain.facts|);
    var later, later' := After(s, rs), After(c, rs);
    LaterIsHalf(s, c, later, later', q, o, g);
    RevertResumes(later, q, 1, 3);
  }

  lemma CrashedIsBeside(s: Store, c: Store, q: RevertRequest, o: Op, g: Gap)
    requires StoreOk(s) && AllKnown(s) && Undoable(s.brain, q, o) && RefSet(o.ref) + RefSet(o.target) <= s.ledger.rows.Keys
    requires c == s.(brain := RevertBrain(s.brain, q, o).brain) && q.opId < |s.ledger.ops| && s.ledger.ops[q.opId] == o
    requires g == Gap(Same, RefSet(o.ref) + RefSet(o.target), {RevertKey(q, o)}, 0)
    requires c == RevertOp(s, q, 1).store
    ensures Beside(g, s, c)
  {
    hide StoreOk, AllKnown, RevertBrain, Undoable, Patched, Twin, NameLedger, RevertOp;
    RevertPatches(s.brain, q, o);
    PatchedIsTwin(s.brain, c.brain, g.touched, RevertKey(q, o));
    SameLedger(s.ledger);
    RevertKeepsStore(s, q, 1);
  }

  /** After the run, the store that carries the crash is the one a crash after the run would leave. */
  lemma LaterIsHalf(s: Store, c: Store, later: Store, later': Store, q: RevertRequest, o: Op, g: Gap)
    requires Beside(g, s, c) && Beside(g, later, later') && Undoable(s.brain, q, o) && c.brain == RevertBrain(s.brain, q, o).brain
    requires g == Gap(Same, RefSet(o.ref) + RefSet(o.target), {RevertKey(q, o)}, 0)
    requires Framed(s, later, g.touched) && Framed(c, later', NameSet(Same, g.touched))
    requires RevertStop(later.ledger, q).None? && q.opId < |s.ledger.ops| && s.ledger.ops[q.opId] == o
    ensures RevertOp(later, q, 1).store == later'
  {
    hide StoreOk, AllKnown, RevertBrain, Undoable, Patched, Twin, NameLedger, Framed, RevertStop, RevertKey, Reverted, RevertRecord;
    var key := RevertKey(q, o);
    SameSet(g.touched);
    SameLedger(later.ledger);
    OpsGrow(s, later, g.touched, q.opId);
    StillUndoable(g, s, later, later', q, o);
    RevertPatches(s.brain, q, o);
    RevertPatches(later.brain, q, o);
    FramedKey(c, later', g.touched, key);
    PatchedHas(s.brain, c.brain, g.touched, key);
    RevertKeyBindsNothing(q, o);
    UnboundInBoth(g, later, later', key);
    TwinIsPatched(later.brain, later'.brain, g.touched, key);
    var half := RevertBrain(later.brain, q, o).brain;
    SameUndone(s.brain, c.brain, later.brain, half, later'.brain, o, g.touched);
    FramedFacts(c, later', g.touched);
    PatchesAgree(later.brain, half, later'.brain, g.touched, key);
    CrashedRevertStep(later, q, o);
  }

  lemma RevertKeyBindsNothing(q: RevertRequest, o: Op)
    ensures !RevertKey(q, o).CreateKey? && !RevertKey(q, o).WorkerKey?
  {
  }

  lemma CrashedRevertStep(s: Store, q: RevertRequest, o: Op)
    requires RevertStop(s.ledger, q).None? && s.ledger.ops[q.opId] == o && Undoable(s.brain, q, o)
    ensures RevertOp(s, q, 1).store == s.(brain := RevertBrain(s.brain, q, o).brain)
  {
    hide RevertStop, RevertBrain, Reverted, Patched, RevertRecord;
    RevertPatches(s.brain, q, o);
  }

  lemma FramedKey(s: Store, s': Store, ids: set<FactId>, key: Key)
    requires Framed(s, s', ids) && key in s.brain.operations
    ensures key in s'.brain.operations && s'.brain.operations[key] == s.brain.operations[key]
  {
  }

  lemma FramedFacts(s: Store, s': Store, ids: set<FactId>)
    requires Framed(s, s', ids)
    ensures forall i <- ids | i < |s.brain.facts| :: i < |s'.brain.facts| && s'.brain.facts[i] == s.brain.facts[i]
  {
  }

  lemma PatchedHas(b: Brain, b': Brain, touched: set<FactId>, key: Key)
    requires Patched(b, b', touched, key)
    ensures key in b'.operations && |b'.facts| == |b.facts|
  {
  }

  lemma UnboundInBoth(g: Gap, s: Store, s': Store, key: Key)
    requires Beside(g, s, s') && !key.CreateKey? && !key.WorkerKey?
    ensures key !in s.brain.bindings && key !in s'.brain.bindings
  {
    hide LedgerOk, AllKnown, TwinStores;
  }

  /** Undone now or undone later, an untouched fact becomes the same. */
  lemma SameUndone(b: Brain, c: Brain, later: Brain, half: Brain, later': Brain, o: Op, touched: set<FactId>)
    requires Reverted(b, c, o) && Reverted(later, half, o)
    requires forall i <- touched :: i < |b.facts| && i < |later.facts| && later.facts[i] == b.facts[i]
    ensures |c.facts| == |b.facts| && |half.facts| == |later.facts|
    ensures forall i <- touched :: half.facts[i] == c.facts[i]
  {
  }

  // ---- forgets

  function ForgetGap(who: Principal, ref: FactId): Gap {
    Gap(Same, {ref}, {ForgetKey(ref, who.workspace)}, 0)
  }

  ghost predicate Archivable(b: Brain, key: Key, ref: FactId) {
    && ref < |b.facts| && key !in b.operations && key !in b.bindings
    && (forall k <- b.operations :: b.operations[k].kind != TombstoneOp)
  }

  lemma ArchivableExists(b: Brain, key: Key, ref: FactId)
    requires Archivable(b, key, ref)
    ensures ref < |b.facts|
  {
  }

  lemma ArchivePatches(b: Brain, key: Key, ref: FactId)
    requires Archivable(b, key, ref)
    ensures var step := SetExpired(b, key, ref, ArchiveOp);
      && step.reply.Ok? && Patched(b, step.brain, {ref}, key) && step.brain.facts[ref] == b.facts[ref].(expired := true)
      && step.brain.operations[key] == Operation(ArchiveOp, OnFact(ref), FactRef(ref))
  {
  }

  lemma CrashedIsArchivable(s: Store, who: Principal, ref: FactId, except: set<FactId>, open: set<Pair>)
    requires Consistent(s, except, open) && ref !in except && Forget(s, who, ref, 1).answer == Crashed
    ensures Archivable(s.brain, ForgetKey(ref, who.workspace), ref) && ref in s.ledger.rows
  {
    hide LedgerOk;
    assert ref in s.ledger.rows && s.brain.facts[ref].Live();
  }

  /** Crash, run, retry and run, retry of a forget leave the same two stores, always. */
  lemma ForgetRetryEquals(s: Store, who: Principal, ref: FactId, rs: seq<Request>, except: set<FactId>, open: set<Pair>)
    requires Consistent(s, except, open) && AllKnown(s) && ref !in except && Forget(s, who, ref, 1).answer == Crashed
    requires ApartRun(s, rs, ForgetGap(who, ref))
    ensures Forget(After(Forget(s, who, ref, 1).store, rs), who, ref, 3).store == Forget(After(s, rs), who, ref, 3).store
  {
    hide Consistent, AllKnown, Forget, ApartRun, After, Archivable, Framed, StoreOk, Beside;
    var c, g := Forget(s, who, ref, 1).store, ForgetGap(who, ref);
    ConsistentStore(s, except, open);
    CrashedIsArchivable(s, who, ref, except, open);
    ForgottenIsBeside(s, c, who, ref, g);
    SameRequests(rs);
    RunBeside(g, s, c, rs, |After(s, rs).brain.facts|);
    LaterIsHalfForgotten(s, c, After(s, rs), After(c, rs), who, ref, g);
    ForgetResumes(After(s, rs), who, ref, 1, 3);
  }

  lemma ForgottenIsBeside(s: Store, c: Store, who: Principal, ref: FactId, g: Gap)
    requires StoreOk(s) && AllKnown(s) && Archivable(s.brain, ForgetKey(ref, who.workspace), ref) && ref in s.ledger.rows
    requires Forget(s, who, ref, 1).answer == Crashed && c == Forget(s, who, ref, 1).store && g == ForgetGap(who, ref)
    ensures Beside(g, s, c)
  {
    hide StoreOk, AllKnown, Archivable, Patched, Twin, NameLedger, SetExpired;
    ArchivePatches(s.brain, ForgetKey(ref, who.workspace), ref);
    PatchedIsTwin(s.brain, c.brain, {ref}, ForgetKey(ref, who.workspace));
    SameLedger(s.ledger);
    ForgetKeepsStore(s, who, ref, 1);
  }

  lemma LaterIsHalfForgotten(s: Store, c: Store, later: Store, later': Store, who: Principal, ref: FactId, g: Gap)
    requires Beside(g, s, c) && Beside(g, later, later') && Archivable(s.brain, ForgetKey(ref, who.workspace), ref)
    requires Forget(s, who, ref, 1).answer == Crashed && c == Forget(s, who, ref, 1).store && g == ForgetGap(who, ref)
    requires Framed(s, later, g.touched) && Framed(c, later', NameSet(Same, g.touched)) && ref in s.ledger.rows
    ensures Forget(later, who, ref, 1).store == later'
  {
    hide StoreOk, AllKnown, Archivable, Patched, Twin, NameLedger, Framed, SetExpired;
    var key := ForgetKey(ref, who.workspace);
    assert ref < |s.brain.facts| by { ArchivableExists(s.brain, key, ref); }
    SameSet(g.touched);
    SameLedger(later.ledger);
    ArchivePatches(s.brain, key, ref);
    FramedTarget(s, later, ref);
    StillArchivable(g, s, later, later', key, ref);
    ArchivePatches(later.brain, key, ref);
    FramedKey(c, later', {ref}, key);
    FramedFact(c, later', ref);
    PatchedHas(s.brain, c.brain, {ref}, key);
    UnboundInBoth(g, later, later', key);
    TwinIsPatched(later.brain, later'.brain, {ref}, key);
    PatchesAgree(later.brain, SetExpired(later.brain, key, ref, ArchiveOp).brain, later'.brain, {ref}, key);
  }

  lemma StillArchivable(g: Gap, s: Store, later: Store, later': Store, key: Key, ref: FactId)
    requires Archivable(s.brain, key, ref) && Twin(g, later.brain, later'.brain) && key in g.extra && ref < |later.brain.facts|
    ensures Archivable(later.brain, key, ref)
  {
    hide FactsTwin, NamePages;
  }
}
