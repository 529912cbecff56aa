/** Crash, run, retry of a request that creates a fact. The crash makes the fact before those of the run, a crash-free
    execution makes it after them; the two end in the same stores up to that shift of serial ids. */
module CreationRetry {
  import opened Names
  import opened GBrain
  import opened Ledger
  import opened Lifecycle
  import opened LedgerInvariants
  import opened AllRuns
  import opened StoreAgreement
  import opened CrashRecovery
  import opened RetriesAmongOthers
  import opened KnownFacts
  import opened Renaming
  import opened Twins
  import opened RetryEquals

  // ---- ids below the moved ones keep their names

  lemma LowName(m: Renaming, i: FactId, n: nat)
    requires m.Cycle? && i < n <= m.first
    ensures Name(m, i) == i && Back(m, i) == i
  {
  }

  lemma LowSet(m: Renaming, refs: set<FactId>, n: nat)
    requires m.Cycle? && n <= m.first && forall r <- refs :: r < n
    ensures NameSet(m, refs) == refs
  {
    forall r | r in refs ensures Name(m, r) == r { LowName(m, r, n); }
    hide Name;
    forall r | r in refs ensures r in NameSet(m, refs) { assert Name(m, r) == r; }
  }

  lemma LowOpt(m: Renaming, ref: Option<FactId>, n: nat)
    requires m.Cycle? && n <= m.first && Known(ref, n)
    ensures NameOpt(m, ref) == ref
  {
  }

  lemma LowRows(m: Renaming, l: Ledger, n: nat)
    requires m.Cycle? && n <= m.first && RowsKnown(l, n)
    ensures NameRows(m, l.rows) == l.rows
  {
    hide Back, NameSet, NameOpt, RowsKnown, Name;
    RowsBelow(l, n);
    LowSet(m, l.rows.Keys, n);
    forall r <- l.rows ensures NameRow(m, l.rows[r]) == l.rows[r] && Back(m, r) == r { LowRow(m, l, r, n); }
  }

  lemma LowRow(m: Renaming, l: Ledger, r: FactId, n: nat)
    requires m.Cycle? && n <= m.first && RowsKnown(l, n) && r in l.rows
    ensures NameRow(m, l.rows[r]) == l.rows[r] && Back(m, r) == r
  {
    LowOpt(m, l.rows[r].supersededBy, n);
    LowName(m, r, n);
    hide NameOpt, Back;
  }

  lemma LowTombstones(m: Renaming, l: Ledger, n: nat)
    requires m.Cycle? && n <= m.first && RowsKnown(l, n)
    ensures NameTombstones(m, l.tombstones) == l.tombstones
  {
    LowSet(m, l.tombstones.Keys, n);
    forall r <- l.tombstones ensures Back(m, r) == r { LowName(m, r, n); }
    hide Back, NameSet, RowsKnown;
  }

  lemma LowOrigins(m: Renaming, l: Ledger, n: nat)
    requires m.Cycle? && n <= m.first && RowsKnown(l, n)
    ensures NameOrigins(m, l.rowByOrigin) == l.rowByOrigin
  {
  }

  lemma LowCrystals(m: Renaming, l: Ledger, n: nat)
    requires m.Cycle? && n <= m.first && RowsKnown(l, n)
    ensures NameCrystals(m, l.crystals) == l.crystals
  {
    forall c <- l.crystals ensures NameSet(m, l.crystals[c].refs) == l.crystals[c].refs { LowSet(m, l.crystals[c].refs, n); }
    hide NameSet;
  }

  lemma LowEvents(m: Renaming, l: Ledger, n: nat)
    requires m.Cycle? && n <= m.first && EventsKnown(l, n)
    ensures NameEvents(m, l.events) == l.events && NameReceipts(m, l.receipts) == l.receipts && NameExternals(m, l.externals) == l.externals
  {
  }

  lemma LowOps(m: Renaming, l: Ledger, n: nat)
    requires m.Cycle? && n <= m.first && OpsKnown(l, n)
    ensures NameOps(m, l.ops) == l.ops
  {
    forall i | 0 <= i < |l.ops| ensures NameOp(m, l.ops[i]) == l.ops[i] { LowOpt(m, l.ops[i].ref, n); LowOpt(m, l.ops[i].target, n); }
  }

  lemma LowLedger(m: Renaming, l: Ledger, n: nat)
    requires m.Cycle? && n <= m.first && LedgerKnown(l, n)
    ensures NameLedger(m, l) == l
  {
    hide NameRows, NameTombstones, NameEvents, NameReceipts, NameOps, NameOrigins, NameCrystals, NameExternals, EventsKnown, RowsKnown, OpsKnown;
    LowRows(m, l, n);
    LowTombstones(m, l, n);
    LowOrigins(m, l, n);
    LowCrystals(m, l, n);
    LowEvents(m, l, n);
    LowOps(m, l, n);
  }

  lemma LowKeys(m: Renaming, b: Brain)
    requires m.Cycle? && |b.facts| <= m.first && BrainKnown(b)
    ensures forall k <- b.operations :: NameKey(m, k) == k && BackKey(m, k) == k && NameOperation(m, b.operations[k]) == b.operations[k]
  {
    forall k <- b.operations ensures NameKey(m, k) == k && BackKey(m, k) == k && NameOperation(m, b.operations[k]) == b.operations[k] {
      LowRef(m, b.operations[k].result, |b.facts|);
    }
  }

  lemma LowRef(m: Renaming, r: Ref, n: nat)
    requires m.Cycle? && n <= m.first && RefKnown(r, n)
    ensures NameRef(m, r) == r
  {
    if r.PageRef? { LowSet(m, r.refs, n); }
  }

  lemma LowPages(m: Renaming, b: Brain)
    requires m.Cycle? && |b.facts| <= m.first && BrainKnown(b)
    ensures NamePages(m, b.pages) == b.pages
  {
    forall p | p in b.pages ensures NameRef(m, p) == p { LowRef(m, p, |b.facts|); }
    hide NameRef;
    forall p | p in b.pages ensures p in NamePages(m, b.pages) { assert NameRef(m, p) == p; }
  }

  lemma LowFacts(m: Renaming, b: Brain)
    requires m.Cycle? && |b.facts| <= m.first && BrainKnown(b)
    ensures forall i | 0 <= i < |b.facts| :: Name(m, i) == i && NameFact(m, b.facts[i]) == b.facts[i]
    ensures forall k <- b.bindings :: Name(m, b.bindings[k]) == b.bindings[k]
  {
  }

  // ---- a fact's text never changes

  ghost predicate SameTexts(b: Brain, b': Brain) {
    |b.facts| <= |b'.facts|
    && forall i | 0 <= i < |b.facts| :: b'.facts[i].content == b.facts[i].content && b'.facts[i].source == b.facts[i].source
                                        && b'.facts[i].session == b.facts[i].session
  }

  lemma ConfirmBrainTexts(l: Ledger, b: Brain, q: ResolveRequest, commits: nat)
    requires q.review < |l.reviews| && l.reviews[q.review].origin in l.events && commits > 0
    ensures SameTexts(b, ConfirmBrain(l, b, q, commits).brain)
  {
  }

  lemma RevertBrainTexts(b: Brain, q: RevertRequest, o: Op)
    ensures SameTexts(b, RevertBrain(b, q, o).brain)
  {
  }

  lemma ResolveTexts(s: Store, q: ResolveRequest, commits: nat)
    ensures SameTexts(s.brain, Resolve(s, q, commits).store.brain)
  {
    hide ResolveStop, ConfirmBrain, ConfirmRefusal, CommitConfirm, CommitClose;
    if ResolveStop(s.ledger, q).None? && commits > 0 { ConfirmBrainTexts(s.ledger, s.brain, q, commits); }
  }

  lemma RevertTexts(s: Store, q: RevertRequest, commits: nat)
    ensures SameTexts(s.brain, RevertOp(s, q, commits).store.brain)
  {
    hide RevertStop, RevertBrain, RevertRefusal, CommitRevert;
    if RevertStop(s.ledger, q).None? { RevertBrainTexts(s.brain, q, s.ledger.ops[q.opId]); }
  }

  lemma WorkerTexts(s: Store, key: EventKey, luck: Luck, commits: nat)
    requires Due(s.ledger, key)
    ensures SameTexts(s.brain, WorkerPass(s, key, luck, commits).store.brain)
  {
    hide CommitApplied, CommitReview, CommitDuplicate, CommitRetry, CommitDeadLetter;
  }

  lemma OtherTexts(s: Store, r: Request, commits: nat)
    requires !r.Resolving? && !r.Reverting? && !r.Working?
    ensures SameTexts(s.brain, Serve(s, r, commits).brain)
  {
    hide CommitForget, CommitRebuild, CommitSubmit, Sources, SetExpired, Rebuild, SameTexts;
    SameBrainTexts(s.brain);
    match r
    case Forgetting(who, ref) => ExpiryTexts(s.brain, ForgetKey(ref, who.workspace), ref);
    case Rebuilding(who, scope, ns, idem) =>
      var binding := ScopeBinding(who.tenant, who.user, who.workspace, scope, ns);
      PageTexts(s.brain, CrystalKey(binding, idem), who.tenant, Sources(s.ledger.rows, binding), binding);
    case _ =>
  }

  lemma ExpiryTexts(b: Brain, key: Key, ref: FactId)
    ensures SameTexts(b, SetExpired(b, key, ref, ArchiveOp).brain)
  {
  }

  lemma PageTexts(b: Brain, key: Key, source: string, refs: set<FactId>, binding: ScopeBinding)
    ensures SameTexts(b, Rebuild(b, key, source, refs, binding).brain)
  {
  }

  /** No request rewrites the text, the tenant or the key of a fact. */
  lemma ServeTexts(s: Store, r: Request, commits: nat)
    ensures SameTexts(s.brain, Serve(s, r, commits).brain)
  {
    hide SameTexts, Resolve, RevertOp, WorkerPass, Submit, Forget, RebuildCrystal;
    match r
    case Resolving(q) => ResolveTexts(s, q, commits);
    case Reverting(q) => RevertTexts(s, q, commits);
    case Working(key, luck) => if Due(s.ledger, key) { WorkerTexts(s, key, luck, commits); } else { SameBrainTexts(s.brain); }
    case _ => OtherTexts(s, r, commits);
  }

  lemma SameBrainTexts(b: Brain)
    ensures SameTexts(b, b)
  {
  }

  lemma {:induction false} RunTexts(s: Store, rs: seq<Request>)
    ensures SameTexts(s.brain, After(s, rs).brain)
    decreases |rs|
  {
    hide Serve;
    if rs != [] {
      ServeTexts(s, rs[0], 3);
      RunTexts(Serve(s, rs[0], 3), rs[1..]);
    }
  }

  // ---- what the crash leaves in GBrain

  /** GBrain after the first commit of a confirmation or, when `linked`, after the second of a supersession. */
  function Planted(b: Brain, q: ResolveRequest, content: string, linked: bool): Brain
    requires linked ==> q.target.Some? && q.target.value < |b.facts|
  {
    var n, key := |b.facts|, CreateKey(q.review, q.idem);
    var facts := b.facts + [Fact(q.who.tenant, content, key, false, None)];
    var made := b.(facts := facts, bindings := b.bindings[key := n]);
    if linked then
      var t := q.target.value;
      made.(facts := facts[t := facts[t].(supersededBy := Some(n))],
            operations := b.operations[SupersedeKey(q.review, q.idem) := Operation(SupersedeOp, OnFact(t), FactRef(n))])
    else made
  }

  /** This is the first attempt of the request: the keys it has got to are new to GBrain. */
  predicate FirstAttempt(b: Brain, q: ResolveRequest, linked: bool) {
    && CreateKey(q.review, q.idem) !in b.bindings && CreateKey(q.review, q.idem) !in b.operations
    && (linked ==> SupersedeKey(q.review, q.idem) !in b.bindings && SupersedeKey(q.review, q.idem) !in b.operations)
  }

  predicate TargetFree(b: Brain, q: ResolveRequest) {
    q.target.Some? && q.target.value < |b.facts| && b.facts[q.target.value].Live() && b.facts[q.target.value].source == q.who.tenant
  }

  lemma PlantedByConfirm(l: Ledger, b: Brain, q: ResolveRequest, k: nat)
    requires ResolveStop(l, q).None? && q.action.CreatesFact() && FirstAttempt(b, q, k == 2) && 0 < k <= 2
    requires k == 2 ==> q.action == Supersession && TargetFree(b, q)
    ensures ConfirmBrain(l, b, q, k) == Step(Planted(b, q, ResolvedPayload(l, q).content, k == 2), Ok(FactRef(|b.facts|)))
  {
    hide ResolveStop;
  }

  lemma CrashNeedsTarget(s: Store, q: ResolveRequest, k: nat)
    requires ResolveStop(s.ledger, q).None? && q.action.CreatesFact() && FirstAttempt(s.brain, q, k == 2) && 0 < k
    requires Resolve(s, q, k).answer == Crashed
    ensures k <= 2 && (k == 2 ==> q.action == Supersession && TargetFree(s.brain, q))
    ensures Resolve(s, q, k).store == s.(brain := ConfirmBrain(s.ledger, s.brain, q, k).brain)
  {
    hide ResolveStop, CommitConfirm, ConfirmRefusal;
  }

  /** The gap a crash opens when the fact it made is the n-th and the run ends with `end` facts. */
  function CreationGap(n: nat, q: ResolveRequest, linked: bool, end: nat): Gap {
    Gap(Cycle(n, end), if linked then RefSet(q.target) else {},
        if linked then {CreateKey(q.review, q.idem), SupersedeKey(q.review, q.idem)} else {CreateKey(q.review, q.idem)}, 1)
  }

  lemma PlantedIsTwin(b: Brain, q: ResolveRequest, content: string, linked: bool, end: nat, g: Gap)
    requires BrainKnown(b) && FirstAttempt(b, q, linked) && (linked ==> TargetFree(b, q)) && |b.facts| <= end
    requires forall k <- b.operations :: b.operations[k].kind != TombstoneOp
    requires g.m == Cycle(|b.facts|, end) && g.more == 1 && g.touched == (if linked then RefSet(q.target) else {})
    requires g.extra == if linked then {CreateKey(q.review, q.idem), SupersedeKey(q.review, q.idem)} else {CreateKey(q.review, q.idem)}
    ensures Twin(g, b, Planted(b, q, content, linked))
  {
    LowKeys(g.m, b);
    LowPages(g.m, b);
    LowFacts(g.m, b);
    hide BrainKnown, Name, NameFact, BackKey, NameOperation, NamePages;
    assert linked ==> q.target.value in g.touched;
    ExtraKeys(g.m, q);
    hide NameKey;
  }

  lemma ExtraKeys(m: Renaming, q: ResolveRequest)
    ensures NameKey(m, CreateKey(q.review, q.idem)) == CreateKey(q.review, q.idem)
    ensures NameKey(m, SupersedeKey(q.review, q.idem)) == SupersedeKey(q.review, q.idem)
    ensures BackKey(m, SupersedeKey(q.review, q.idem)) == SupersedeKey(q.review, q.idem)
  {
  }

  lemma CrashIsBeside(s: Store, q: ResolveRequest, k: nat, end: nat)
    requires StoreOk(s) && AllKnown(s) && ResolveStop(s.ledger, q).None? && q.action.CreatesFact() && FirstAttempt(s.brain, q, k == 2)
    requires 0 < k && Resolve(s, q, k).answer == Crashed && |s.brain.facts| <= end
    ensures k <= 2 && (k == 2 ==> TargetFree(s.brain, q) && q.target.value in s.ledger.rows)
    ensures Resolve(s, q, k).store.brain == Planted(s.brain, q, ResolvedPayload(s.ledger, q).content, k == 2)
    ensures Beside(CreationGap(|s.brain.facts|, q, k == 2, end), s, Resolve(s, q, k).store)
  {
    hide LedgerOk, LedgerKnown, BrainKnown, ResolveStop, ConfirmBrain, FirstAttempt, Twin, NameLedger, Resolve, Planted, TargetFree;
    var g := CreationGap(|s.brain.facts|, q, k == 2, end);
    CrashNeedsTarget(s, q, k);
    PlantedByConfirm(s.ledger, s.brain, q, k);
    if k == 2 { TargetOfResolve(s.ledger, q); }
    PlantedIsTwin(s.brain, q, ResolvedPayload(s.ledger, q).content, k == 2, end, g);
    LowLedger(g.m, s.ledger, |s.brain.facts|);
    ResolveKeepsStore(s, q, k);
    hide KeysMatch;
  }

  // ---- after the run

  /** What the run leaves of the crash: the fact and its key, and the link of a supersession. */
  ghost predicate Kept(n: FactId, b: Brain, b': Brain, q: ResolveRequest, content: string, linked: bool) {
    var key, link := CreateKey(q.review, q.idem), SupersedeKey(q.review, q.idem);
    && key in b'.bindings && b'.bindings[key] == n && n < |b'.facts| && b'.facts[n] == Fact(q.who.tenant, content, key, false, None)
    && key !in b'.operations && link !in b'.bindings
    && (linked ==>
          && q.target.Some? && q.target.value < n && n <= |b.facts| && n < |b'.facts|
          && b'.facts[q.target.value] == b.facts[q.target.value].(supersededBy := Some(n)) && b.facts[q.target.value].Live()
          && link in b'.operations && b'.operations[link] == Operation(SupersedeOp, OnFact(q.target.value), FactRef(n)))
  }

  ghost predicate GapOf(g: Gap, b: Brain, q: ResolveRequest, linked: bool) {
    && g.m.Cycle? && g.m.first <= g.m.last == |b.facts| && g.more == 1
    && g.touched == (if linked then RefSet(q.target) else {})
    && g.extra == if linked then {CreateKey(q.review, q.idem), SupersedeKey(q.review, q.idem)} else {CreateKey(q.review, q.idem)}
  }

  lemma LateFacts(g: Gap, b: Brain, b': Brain, q: ResolveRequest, content: string, linked: bool)
    requires FactsTwin(g, b, b') && GapOf(g, b, q, linked) && Kept(g.m.first, b, b', q, content, linked)
    ensures FactsTwin(Gap(g.m, {}, {}, 0), Planted(b, q, content, linked), b')
  {
    assert linked ==> q.target.value in g.touched;
  }

  lemma LateBindings(g: Gap, b: Brain, b': Brain, q: ResolveRequest, content: string, linked: bool)
    requires BindingsTwin(g, b, b') && GapOf(g, b, q, linked) && Kept(g.m.first, b, b', q, content, linked)
    ensures BindingsTwin(Gap(g.m, {}, {}, 0), Planted(b, q, content, linked), b')
  {
  }

  lemma LateOperations(g: Gap, b: Brain, b': Brain, q: ResolveRequest, content: string, linked: bool)
    requires OperationsTwin(g, b, b') && GapOf(g, b, q, linked) && Kept(g.m.first, b, b', q, content, linked) && FirstAttempt(b, q, linked)
    ensures OperationsTwin(Gap(g.m, {}, {}, 0), Planted(b, q, content, linked), b')
  {
    ExtraKeys(g.m, q);
    LinkNamed(g.m, q);
    KeysBack(g.m);
    hide NameKey, BackKey, NameOperation;
  }

  lemma KeysBack(m: Renaming)
    ensures forall k: Key :: NameKey(m, BackKey(m, k)) == k
  {
    forall k: Key ensures NameKey(m, BackKey(m, k)) == k { KeysNamed(m, k); }
  }

  /** The crashed link, named: the target is below the moved ids and the last fact becomes the first. */
  lemma LinkNamed(m: Renaming, q: ResolveRequest)
    ensures m.Cycle? && m.first <= m.last && q.target.Some? && q.target.value < m.first ==>
      NameOperation(m, Operation(SupersedeOp, OnFact(q.target.value), FactRef(m.last)))
        == Operation(SupersedeOp, OnFact(q.target.value), FactRef(m.first))
  {
  }

  /** GBrain after the run, with the crash, against GBrain when the same commits come after the run. */
  lemma LateTwin(g: Gap, b: Brain, b': Brain, q: ResolveRequest, content: string, linked: bool)
    requires Twin(g, b, b') && GapOf(g, b, q, linked) && Kept(g.m.first, b, b', q, content, linked) && FirstAttempt(b, q, linked)
    ensures Twin(Gap(g.m, {}, {}, 0), Planted(b, q, content, linked), b')
  {
    LateFacts(g, b, b', q, content, linked);
    LateBindings(g, b, b', q, content, linked);
    LateOperations(g, b, b', q, content, linked);
    hide FactsTwin, BindingsTwin, OperationsTwin, GapOf, Kept, FirstAttempt, NamePages;
  }

  /** c carries the n-th fact of the crashed request, and its link, on top of s. */
  ghost predicate Carries(n: FactId, s: Store, c: Store, q: ResolveRequest, content: string, linked: bool) {
    var key, link := CreateKey(q.review, q.idem), SupersedeKey(q.review, q.idem);
    && key in c.brain.bindings && c.brain.bindings[key] == n && n < |c.brain.facts|
    && c.brain.facts[n].source == q.who.tenant && c.brain.facts[n].content == content && c.brain.facts[n].session == key
    && (linked ==>
          && TargetFree(s.brain, q) && q.target.value < n <= |s.brain.facts|
          && q.target.value < |c.brain.facts| && c.brain.facts[q.target.value] == s.brain.facts[q.target.value].(supersededBy := Some(n))
          && link in c.brain.operations && c.brain.operations[link] == Operation(SupersedeOp, OnFact(q.target.value), FactRef(n)))
  }

  lemma PlantedCarries(s: Store, c: Store, q: ResolveRequest, content: string, linked: bool)
    requires (linked ==> TargetFree(s.brain, q)) && c.brain == Planted(s.brain, q, content, linked)
    ensures Carries(|s.brain.facts|, s, c, q, content, linked)
  {
  }

  lemma KeptFact(g: Gap, s: Store, c: Store, later: Store, later': Store, q: ResolveRequest, content: string, linked: bool)
    requires Beside(g, later, later') && GapOf(g, later.brain, q, linked) && Carries(g.m.first, s, c, q, content, linked)
    requires Framed(c, later', NameSet(g.m, g.touched)) && SameTexts(c.brain, later'.brain)
    ensures var n, key := g.m.first, CreateKey(q.review, q.idem);
      && key in later'.brain.bindings && later'.brain.bindings[key] == n && n < |later'.brain.facts|
      && later'.brain.facts[n] == Fact(q.who.tenant, content, key, false, None)
      && key !in later'.brain.operations && SupersedeKey(q.review, q.idem) !in later'.brain.bindings
  {
    hide LedgerOk, Twin, NameLedger, RowsKnown, OpsKnown, EventsKnown, BrainKnown, NameRows, LogGrows, SameEvent, NameSet, KeyPlaced, Name, TargetFree;
    var n, end, key := g.m.first, |later.brain.facts|, CreateKey(q.review, q.idem);
    assert n !in later'.ledger.rows by {
      LastIsFirst(g.m);
      NamedTables(g.m, later.ledger);
      RowIn(g.m, later.ledger.rows, end);
      RowsBelow(later.ledger, end);
    }
  }

  lemma LastIsFirst(m: Renaming)
    ensures m.Cycle? && m.first <= m.last ==> Name(m, m.last) == m.first
  {
  }

  lemma RowsBelow(l: Ledger, n: nat)
    requires RowsKnown(l, n)
    ensures forall r <- l.rows :: r < n
  {
  }

  lemma KeptLink(g: Gap, s: Store, c: Store, later: Store, later': Store, q: ResolveRequest, content: string)
    requires GapOf(g, later.brain, q, true) && Carries(g.m.first, s, c, q, content, true)
    requires Framed(s, later, g.touched) && Framed(c, later', NameSet(g.m, g.touched))
    ensures var n, t, link := g.m.first, q.target.value, SupersedeKey(q.review, q.idem);
      && t < |later.brain.facts| && later.brain.facts[t] == s.brain.facts[t]
      && t < |later'.brain.facts| && later'.brain.facts[t] == later.brain.facts[t].(supersededBy := Some(n))
      && link in later'.brain.operations && later'.brain.operations[link] == Operation(SupersedeOp, OnFact(t), FactRef(n))
  {
    hide LogGrows, SameEvent;
    var t := q.target.value;
    assert t in g.touched;
    LowName(g.m, t, g.m.first);
    SetHas(g.m, g.touched, t);
  }

  lemma StillFirst(g: Gap, later: Store, later': Store, q: ResolveRequest, linked: bool)
    requires Beside(g, later, later')
    requires g.extra == if linked then {CreateKey(q.review, q.idem), SupersedeKey(q.review, q.idem)} else {CreateKey(q.review, q.idem)}
    ensures FirstAttempt(later.brain, q, linked)
  {
    hide LedgerOk, AllKnown, KeysMatch, FactsTwin, OperationsTwin, NameLedger, NameKey, NamePages;
  }

  /** The run and the crash: what is kept, and that the same commits would still go through after the run. */
  lemma KeptAfterRun(g: Gap, s: Store, c: Store, later: Store, later': Store, q: ResolveRequest, content: string, linked: bool)
    requires Beside(g, later, later') && GapOf(g, later.brain, q, linked) && Carries(g.m.first, s, c, q, content, linked)
    requires Framed(s, later, g.touched) && Framed(c, later', NameSet(g.m, g.touched)) && SameTexts(c.brain, later'.brain)
    ensures FirstAttempt(later.brain, q, linked) && (linked ==> TargetFree(later.brain, q))
    ensures Kept(g.m.first, later.brain, later'.brain, q, content, linked)
  {
    hide Beside, Framed, SameTexts, NameSet, FirstAttempt;
    KeptFact(g, s, c, later, later', q, content, linked);
    if linked { KeptLink(g, s, c, later, later', q, content); }
    StillFirst(g, later, later', q, linked);
  }

  lemma SameContent(s: Store, later: Store, q: ResolveRequest, touched: set<FactId>)
    requires ResolveStop(s.ledger, q).None? && ResolveStop(later.ledger, q).None? && Framed(s, later, touched)
    ensures ResolvedPayload(later.ledger, q) == ResolvedPayload(s.ledger, q)
  {
    hide ResolveStop;
  }

  lemma CrashLater(s: Store, q: ResolveRequest, k: nat)
    requires ResolveStop(s.ledger, q).None? && q.action.CreatesFact() && 0 < k <= 2 && (k == 2 ==> q.action == Supersession)
    requires ConfirmBrain(s.ledger, s.brain, q, k).reply.Ok?
    ensures Resolve(s, q, k).store == s.(brain := ConfirmBrain(s.ledger, s.brain, q, k).brain)
  {
    hide ResolveStop, ConfirmBrain;
  }

  // ---- the theorem

  /** s' is s with every fact id renamed. */
  ghost predicate RenamedStore(m: Renaming, s: Store, s': Store) {
    TwinStores(Gap(m, {}, {}, 0), s, s')
  }

  lemma BoundKeyMakesNothing(s: Store, q: ResolveRequest)
    requires StoreOk(s) && CreateKey(q.review, q.idem) in s.brain.bindings
    ensures |Resolve(s, q, 3).store.brain.facts| == |s.brain.facts|
  {
    hide LedgerOk, ResolveStop, KeyPlaced, ConfirmRefusal, CommitConfirm, CommitClose;
  }

  /** Without a supersession the named target is not looked at. */
  lemma TargetIsIdle(s: Store, q: ResolveRequest, other: Option<FactId>)
    requires q.action != Supersession
    ensures Resolve(s, q.(target := other), 3) == Resolve(s, q, 3)
  {
    var p := q.(target := other);
    assert ResolveStop(s.ledger, p) == ResolveStop(s.ledger, q);
    hide ResolveStop, CommitConfirm, CommitClose, Upsert;
  }

  lemma TargetIsKnown(s: Store, q: ResolveRequest)
    requires AllKnown(s) && ResolveStop(s.ledger, q).None? && q.action == Supersession
    ensures q.target.Some? && q.target.value < |s.brain.facts|
  {
    hide BrainKnown, OpsKnown, EventsKnown, ResolveStop;
    TargetOfResolve(s.ledger, q);
  }

  lemma LateRetry(s: Store, later: Store, later': Store, q: ResolveRequest, k: nat, m: Renaming, content: string)
    requires StoreOk(later) && ResolveStop(later.ledger, q).None? && q.action.CreatesFact() && 0 < k <= 2
    requires FirstAttempt(later.brain, q, k == 2) && (k == 2 ==> q.action == Supersession && TargetFree(later.brain, q))
    requires content == ResolvedPayload(later.ledger, q).content && later'.ledger == NameLedger(m, later.ledger)
    requires Twin(Gap(m, {}, {}, 0), Planted(later.brain, q, content, k == 2), later'.brain)
    ensures RenamedStore(m, Resolve(later, q, 3).store, Resolve(later', NameResolve(m, q), 3).store)
  {
    hide StoreOk, ResolveStop, ConfirmBrain, Twin, NameLedger, Planted, FirstAttempt, TargetFree, Resolve;
    var half := Resolve(later, q, k).store;
    PlantedByConfirm(later.ledger, later.brain, q, k);
    CrashLater(later, q, k);
    ResolveKeepsStore(later, q, k);
    PlantedBinds(later.brain, q, content, k == 2);
    BoundKeyMakesNothing(half, q);
    ResolveTwin(Gap(m, {}, {}, 0), half, later', q);
    ResolveResumes(later, q, k, 3);
  }

  lemma PlantedBinds(b: Brain, q: ResolveRequest, content: string, linked: bool)
    requires linked ==> TargetFree(b, q)
    ensures linked ==> q.target.Some? && q.target.value < |b.facts|
    ensures CreateKey(q.review, q.idem) in Planted(b, q, content, linked).bindings
  {
  }

  /** Beside a store, one that carries a crash: through any run that leaves the gap alone, up to the complete retry. */
  lemma CarriedRetryEquals(n: FactId, s: Store, c: Store, q: ResolveRequest, content: string, linked: bool, rs: seq<Request>)
    requires var g := CreationGap(n, q, linked, |After(s, rs).brain.facts|);
      Beside(g, s, c) && n <= |s.brain.facts| && ApartRun(s, rs, g)
    requires Carries(n, s, c, q, content, linked) && q.action.CreatesFact() && (linked ==> q.action == Supersession)
    requires q.action == Supersession ==> q.target.Some? && q.target.value < n
    requires ResolveStop(s.ledger, q).None? && content == ResolvedPayload(s.ledger, q).content && ResolveStop(After(s, rs).ledger, q).None?
    ensures var m := Cycle(n, |After(s, rs).brain.facts|);
      RenamedStore(m, Resolve(After(s, rs), q, 3).store, Resolve(After(c, NameRequests(m, rs)), q, 3).store)
  {
    hide StoreOk, AllKnown, ResolveStop, FirstAttempt, ApartRun, After, Resolve, Framed, Twin, Planted, Kept, SameTexts, NameLedger,
      NameRequests, RenamedStore, NameResolve, TargetFree, Beside, Carries;
    var end := |After(s, rs).brain.facts|;
    var g := CreationGap(n, q, linked, end);
    BesideKnown(g, s, c);
    RunGrows(s, rs);
    RunBeside(g, s, c, rs, end);
    var later, later' := After(s, rs), After(c, NameRequests(g.m, rs));
    RunTexts(c, NameRequests(g.m, rs));
    SameContent(s, later, q, g.touched);
    KeptAfterRun(g, s, c, later, later', q, content, linked);
    BesideKnown(g, later, later');
    BesideTwin(g, later, later');
    LateTwin(g, later.brain, later'.brain, q, content, linked);
    LateRetry(s, later, later', q, if linked then 2 else 1, g.m, content);
    NamedTarget(g.m, q);
    if q.action != Supersession { TargetIsIdle(later', q, NameOpt(g.m, q.target)); }
  }

  /** A request crashed after its k-th GBrain commit, on its first attempt; then any requests that leave its target
      and its keys alone; then its retry, whose guards still pass. Both stores end as if it had never crashed, up to
      the ids of the facts created in between, which the crashed fact precedes instead of following. */
  lemma CreationRetryEquals(s: Store, q: ResolveRequest, k: nat, rs: seq<Request>)
    requires StoreOk(s) && AllKnown(s) && ResolveStop(s.ledger, q).None? && q.action.CreatesFact()
    requires FirstAttempt(s.brain, q, k == 2) && 0 < k && Resolve(s, q, k).answer == Crashed
    requires ApartRun(s, rs, CreationGap(|s.brain.facts|, q, k == 2, |After(s, rs).brain.facts|)) && ResolveStop(After(s, rs).ledger, q).None?
    ensures var m := Cycle(|s.brain.facts|, |After(s, rs).brain.facts|);
      RenamedStore(m, Resolve(After(s, rs), q, 3).store, Resolve(After(Resolve(s, q, k).store, NameRequests(m, rs)), q, 3).store)
  {
    hide StoreOk, AllKnown, ResolveStop, FirstAttempt, ApartRun, After, Resolve, Planted, NameRequests, RenamedStore, TargetFree, Beside, Carries;
    var content := ResolvedPayload(s.ledger, q).content;
    RunGrows(s, rs);
    CrashNeedsTarget(s, q, k);
    CrashIsBeside(s, q, k, |After(s, rs).brain.facts|);
    PlantedCarries(s, Resolve(s, q, k).store, q, content, k == 2);
    if q.action == Supersession { TargetIsKnown(s, q); }
    CarriedRetryEquals(|s.brain.facts|, s, Resolve(s, q, k).store, q, content, k == 2, rs);
  }

  lemma NamedTarget(m: Renaming, q: ResolveRequest)
    ensures NameResolve(m, q) == q.(target := NameOpt(m, q.target))
    ensures m.Cycle? && q.target.Some? && q.target.value < m.first ==> NameResolve(m, q) == q
  {
  }

  lemma BesideTwin(g: Gap, s: Store, s': Store)
    requires Beside(g, s, s')
    ensures Twin(g, s.brain, s'.brain) && s'.ledger == NameLedger(g.m, s.ledger)
  {
  }
}
