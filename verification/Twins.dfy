/** Two runs of the same requests, one of which carries what a crashed request left in GBrain. Their ledgers are equal
    up to renaming, their GBrains up to the facts and keys of the crashed request; every request on other facts keeps
    that so. */
module Twins {
  import opened Names
  import opened GBrain
  import opened Ledger
  import opened Lifecycle
  import opened LedgerInvariants
  import opened AllRuns
  import opened StoreAgreement
  import opened Renaming

  function NameKey(m: Renaming, k: Key): Key {
    match k case ForgetKey(ref, workspace) => ForgetKey(Name(m, ref), workspace) case _ => k
  }

  function BackKey(m: Renaming, k: Key): Key {
    match k case ForgetKey(ref, workspace) => ForgetKey(Back(m, ref), workspace) case _ => k
  }

  function NameFact(m: Renaming, f: Fact): Fact {
    f.(supersededBy := NameOpt(m, f.supersededBy))
  }

  function NameTarget(m: Renaming, t: Target): Target {
    match t case OnFact(id) => OnFact(Name(m, id)) case OnPair(o, n) => OnPair(Name(m, o), Name(m, n)) case OnScope(b) => t
  }

  function NameRef(m: Renaming, r: Ref): Ref {
    match r case FactRef(id) => FactRef(Name(m, id)) case PageRef(source, binding, refs) => PageRef(source, binding, NameSet(m, refs))
  }

  function NameOperation(m: Renaming, o: Operation): Operation {
    Operation(o.kind, NameTarget(m, o.target), NameRef(m, o.result))
  }

  function NamePages(m: Renaming, pages: set<Ref>): set<Ref> {
    set p | p in pages :: NameRef(m, p)
  }

  /** extra: keys only the second GBrain has; touched: facts that may differ; more: how many facts it has on top. */
  datatype Gap = Gap(m: Renaming, touched: set<FactId>, extra: set<Key>, more: nat)

  ghost predicate FactsTwin(g: Gap, b: Brain, b': Brain) {
    && |b'.facts| == |b.facts| + g.more
    && (forall i | 0 <= i < |b.facts| ::
          && Name(g.m, i) < |b'.facts|
          && (i !in g.touched ==> b'.facts[Name(g.m, i)] == NameFact(g.m, b.facts[i]))
          && b'.facts[Name(g.m, i)].source == b.facts[i].source)
  }

  ghost predicate BindingsTwin(g: Gap, b: Brain, b': Brain) {
    && (forall k <- b.bindings :: k in b'.bindings && b'.bindings[k] == Name(g.m, b.bindings[k]))
    && (forall k <- b'.bindings :: k in b.bindings || k in g.extra)
    && (forall k <- g.extra :: k !in b.bindings && k !in b.operations && NameKey(g.m, k) == k)
  }

  ghost predicate OperationsTwin(g: Gap, b: Brain, b': Brain) {
    && (forall k <- b.operations ::
          NameKey(g.m, k) in b'.operations && b'.operations[NameKey(g.m, k)] == NameOperation(g.m, b.operations[k]))
    && (forall k <- b'.operations :: k in g.extra || BackKey(g.m, k) in b.operations)
    && (forall k <- b.operations :: b.operations[k].kind != TombstoneOp)
    && (forall k <- b'.operations :: b'.operations[k].kind != TombstoneOp)
  }

  ghost predicate Twin(g: Gap, b: Brain, b': Brain) {
    FactsTwin(g, b, b') && BindingsTwin(g, b, b') && OperationsTwin(g, b, b') && b'.pages == NamePages(g.m, b.pages)
  }

  predicate SameReply(m: Renaming, r: Reply, r': Reply) {
    (r.Ok? <==> r'.Ok?) && (r.Ok? ==> r'.ref == NameRef(m, r.ref))
  }

  lemma KeysNamed(m: Renaming, k: Key)
    ensures BackKey(m, NameKey(m, k)) == k && NameKey(m, BackKey(m, k)) == k
  {
    if k.ForgetKey? { NameIsBijective(m, k.ref); }
  }

  lemma TargetsDiffer(m: Renaming, t: Target, u: Target)
    ensures NameTarget(m, t) == NameTarget(m, u) <==> t == u
  {
    if t.OnFact? && u.OnFact? { NamesDiffer(m, t.id, u.id); }
    if t.OnPair? && u.OnPair? { NamesDiffer(m, t.oldId, u.oldId); NamesDiffer(m, t.newId, u.newId); }
  }

  /** A key outside the gap is known to both, and answered alike. */
  lemma ExistingTwin(g: Gap, b: Brain, b': Brain, key: Key, kind: Kind, target: Target)
    requires Twin(g, b, b') && NameKey(g.m, key) !in g.extra && !key.CreateKey? && !key.WorkerKey?
    requires key !in b.bindings && NameKey(g.m, key) !in b'.bindings
    ensures var e, e' := ExistingOperation(b, key, kind, target), ExistingOperation(b', NameKey(g.m, key), kind, NameTarget(g.m, target));
      (e.None? <==> e'.None?) && (e.Some? ==> SameReply(g.m, e.value, e'.value))
    ensures key in b.operations <==> NameKey(g.m, key) in b'.operations
  {
    hide Twin, NameTarget, NameKey, BackKey, NameRef;
    LookupTwin(g, b, b', key);
    if key in b.operations { TargetsDiffer(g.m, b.operations[key].target, target); }
  }

  lemma LookupTwin(g: Gap, b: Brain, b': Brain, key: Key)
    requires Twin(g, b, b') && NameKey(g.m, key) !in g.extra
    ensures key in b.operations <==> NameKey(g.m, key) in b'.operations
    ensures key in b.operations ==> b'.operations[NameKey(g.m, key)] == NameOperation(g.m, b.operations[key])
  {
    KeysNamed(g.m, key);
    hide FactsTwin, BindingsTwin, NameKey, BackKey, NameOperation, NamePages;
  }

  /** Recording the same operation on both sides. */
  lemma RecordTwin(g: Gap, b: Brain, b': Brain, c: Brain, c': Brain, key: Key, o: Operation)
    requires Twin(g, b, b') && NameKey(g.m, key) !in g.extra && o.kind != TombstoneOp
    requires c.bindings == b.bindings && c'.bindings == b'.bindings
    requires c.operations == b.operations[key := o] && c'.operations == b'.operations[NameKey(g.m, key) := NameOperation(g.m, o)]
    ensures BindingsTwin(g, c, c') && OperationsTwin(g, c, c')
  {
    hide NameKey, BackKey, NameOperation, FactsTwin, BindingsTwin, OperationsTwin, NamePages;
    RecordBindings(g, b, b', c, c', key, o);
    RecordOperations(g, b, b', c, c', key, o);
  }

  lemma RecordBindings(g: Gap, b: Brain, b': Brain, c: Brain, c': Brain, key: Key, o: Operation)
    requires BindingsTwin(g, b, b') && NameKey(g.m, key) !in g.extra
    requires c.bindings == b.bindings && c'.bindings == b'.bindings && c.operations == b.operations[key := o]
    ensures BindingsTwin(g, c, c')
  {
    hide NameKey;
  }

  lemma RecordOperations(g: Gap, b: Brain, b': Brain, c: Brain, c': Brain, key: Key, o: Operation)
    requires OperationsTwin(g, b, b') && o.kind != TombstoneOp
    requires c.operations == b.operations[key := o] && c'.operations == b'.operations[NameKey(g.m, key) := NameOperation(g.m, o)]
    ensures OperationsTwin(g, c, c')
  {
    KeysNamed(g.m, key);
    forall k: Key ensures BackKey(g.m, NameKey(g.m, k)) == k { KeysNamed(g.m, k); }
    hide NameKey, BackKey, NameTarget, NameRef;
  }

  lemma UpsertTwin(g: Gap, b: Brain, b': Brain, key: Key, source: string, content: string)
    requires Twin(g, b, b') && (key.CreateKey? || key.WorkerKey?) && key !in g.extra && key !in b.operations
    requires key in b.bindings ==> b.bindings[key] < |b.facts|
    requires key !in b.bindings ==> Name(g.m, |b.facts|) == |b'.facts|
    ensures var r, r' := Upsert(b, key, source, content), Upsert(b', key, source, content);
      && Twin(g, r.brain, r'.brain) && r.reply.Ok? && SameReply(g.m, r.reply, r'.reply)
      && r.reply.ref.id < |r.brain.facts| && |b.facts| <= |r.brain.facts|
      && r.brain.operations == b.operations && r'.brain.operations == b'.operations
  {
    hide FactsTwin, BindingsTwin, OperationsTwin, Name, NameFact, NamePages;
    var r, r' := Upsert(b, key, source, content), Upsert(b', key, source, content);
    CreationKeyTwin(g, b, b', key);
    if key !in b.bindings {
      NewFactTwin(g, b, b', r.brain, r'.brain, Fact(source, content, key, false, None));
      NewBindingTwin(g, b, b', r.brain, r'.brain, key);
    }
    SameOperations(g, b, b', r.brain, r'.brain);
  }

  lemma CreationKeyTwin(g: Gap, b: Brain, b': Brain, key: Key)
    requires Twin(g, b, b') && (key.CreateKey? || key.WorkerKey?) && key !in g.extra && key !in b.operations
    ensures key !in b'.operations && (key in b.bindings <==> key in b'.bindings)
    ensures key in b.bindings ==> b'.bindings[key] == Name(g.m, b.bindings[key])
  {
    hide FactsTwin, Name, NamePages, NameOperation;
  }

  lemma NewFactTwin(g: Gap, b: Brain, b': Brain, c: Brain, c': Brain, f: Fact)
    requires FactsTwin(g, b, b') && Name(g.m, |b.facts|) == |b'.facts| && f.supersededBy.None?
    requires c.facts == b.facts + [f] && c'.facts == b'.facts + [f]
    ensures FactsTwin(g, c, c')
  {
    NamesStayApart(g.m, |b.facts|);
    hide Name;
  }

  lemma NewBindingTwin(g: Gap, b: Brain, b': Brain, c: Brain, c': Brain, key: Key)
    requires BindingsTwin(g, b, b') && key !in g.extra && Name(g.m, |b.facts|) == |b'.facts|
    requires c.bindings == b.bindings[key := |b.facts|] && c'.bindings == b'.bindings[key := |b'.facts|] && c.operations == b.operations
    ensures BindingsTwin(g, c, c')
  {
    hide Name, NameKey;
  }

  lemma NamesStayApart(m: Renaming, n: FactId)
    ensures forall i: FactId :: Name(m, i) == Name(m, n) ==> i == n
  {
    forall i: FactId | Name(m, i) == Name(m, n) ensures i == n { NamesDiffer(m, i, n); }
  }

  lemma SameOperations(g: Gap, b: Brain, b': Brain, c: Brain, c': Brain)
    requires OperationsTwin(g, b, b')
    ensures c.operations == b.operations && c'.operations == b'.operations ==> OperationsTwin(g, c, c')
  {
  }

  /** The same change to the same fact on both sides. */
  lemma FactUpdateTwin(g: Gap, b: Brain, b': Brain, c: Brain, c': Brain, i: FactId, f: Fact)
    requires FactsTwin(g, b, b') && i < |b.facts| && i !in g.touched && f.source == b.facts[i].source
    requires Name(g.m, i) < |b'.facts| && c.facts == b.facts[i := f] && c'.facts == b'.facts[Name(g.m, i) := NameFact(g.m, f)]
    ensures FactsTwin(g, c, c')
  {
    NamesStayApart(g.m, i);
    hide Name, NameOpt;
  }

  lemma SupersedeTwin(g: Gap, b: Brain, b': Brain, key: Key, oldId: FactId, newId: FactId)
    requires Twin(g, b, b') && key.SupersedeKey? && key !in g.extra && key !in b.bindings && key !in b'.bindings
    requires oldId < |b.facts| && newId < |b.facts| && oldId !in g.touched && newId !in g.touched
    ensures var r, r' := Supersede(b, key, oldId, newId), Supersede(b', key, Name(g.m, oldId), Name(g.m, newId));
      Twin(g, r.brain, r'.brain) && SameReply(g.m, r.reply, r'.reply)
  {
    hide FactsTwin, BindingsTwin, OperationsTwin, Name, NamePages, ExistingOperation;
    ExistingTwin(g, b, b', key, SupersedeOp, OnFact(oldId));
    NamesDiffer(g.m, oldId, newId);
    FactTwin(g, b, b', oldId);
    FactTwin(g, b, b', newId);
    var r, r' := Supersede(b, key, oldId, newId), Supersede(b', key, Name(g.m, oldId), Name(g.m, newId));
    if r.brain != b {
      RecordTwin(g, b, b', r.brain, r'.brain, key, Operation(SupersedeOp, OnFact(oldId), FactRef(newId)));
      FactUpdateTwin(g, b, b', r.brain, r'.brain, oldId, b.facts[oldId].(supersededBy := Some(newId)));
    }
  }

  lemma SetExpiredTwin(g: Gap, b: Brain, b': Brain, key: Key, id: FactId)
    requires Twin(g, b, b') && (key.ArchiveKey? || key.ForgetKey?) && NameKey(g.m, key) !in g.extra
    requires key !in b.bindings && NameKey(g.m, key) !in b'.bindings
    requires id < |b.facts| && id !in g.touched
    ensures var r, r' := SetExpired(b, key, id, ArchiveOp), SetExpired(b', NameKey(g.m, key), Name(g.m, id), ArchiveOp);
      Twin(g, r.brain, r'.brain) && SameReply(g.m, r.reply, r'.reply)
  {
    hide FactsTwin, BindingsTwin, OperationsTwin, Name, NameKey, NamePages, Tombstoned, ExistingOperation;
    NoTombstones(g, b, b', id);
    ExistingTwin(g, b, b', key, ArchiveOp, OnFact(id));
    FactTwin(g, b, b', id);
    var r, r' := SetExpired(b, key, id, ArchiveOp), SetExpired(b', NameKey(g.m, key), Name(g.m, id), ArchiveOp);
    if ExistingOperation(b, key, ArchiveOp, OnFact(id)).None? {
      RecordTwin(g, b, b', r.brain, r'.brain, key, Operation(ArchiveOp, OnFact(id), FactRef(id)));
      FactUpdateTwin(g, b, b', r.brain, r'.brain, id, b.facts[id].(expired := true));
    }
  }

  lemma NoTombstones(g: Gap, b: Brain, b': Brain, id: FactId)
    requires OperationsTwin(g, b, b')
    ensures !Tombstoned(b, id) && !Tombstoned(b', Name(g.m, id))
  {
    hide Name;
  }

  lemma RestoreTwin(g: Gap, b: Brain, b': Brain, key: Key, oldId: FactId, newId: FactId)
    requires Twin(g, b, b') && key.RestoreKey? && key !in g.extra && key !in b.bindings && key !in b'.bindings
    requires oldId < |b.facts| && newId < |b.facts| && oldId !in g.touched && newId !in g.touched
    ensures var r, r' := Restore(b, key, oldId, newId), Restore(b', key, Name(g.m, oldId), Name(g.m, newId));
      Twin(g, r.brain, r'.brain) && SameReply(g.m, r.reply, r'.reply)
  {
    hide FactsTwin, BindingsTwin, OperationsTwin, Name, NamePages, ExistingOperation;
    ExistingTwin(g, b, b', key, RestoreOp, OnPair(oldId, newId));
    NamesDiffer(g.m, oldId, newId);
    FactTwin(g, b, b', oldId);
    FactTwin(g, b, b', newId);
    OptsDiffer(g.m, b.facts[oldId].supersededBy, Some(newId));
    var r, r' := Restore(b, key, oldId, newId), Restore(b', key, Name(g.m, oldId), Name(g.m, newId));
    if r.brain != b {
      RecordTwin(g, b, b', r.brain, r'.brain, key, Operation(RestoreOp, OnPair(oldId, newId), FactRef(oldId)));
      RestoredTwin(g, b, b', r.brain, r'.brain, oldId, newId);
    }
  }

  lemma RestoredTwin(g: Gap, b: Brain, b': Brain, c: Brain, c': Brain, oldId: FactId, newId: FactId)
    requires FactsTwin(g, b, b') && oldId < |b.facts| && newId < |b.facts| && oldId !in g.touched && newId !in g.touched && oldId != newId
    requires Name(g.m, oldId) < |b'.facts| && Name(g.m, newId) < |b'.facts|
    requires c.facts == Expire(b.facts[oldId := b.facts[oldId].(supersededBy := None)], newId)
    requires c'.facts == Expire(b'.facts[Name(g.m, oldId) := b'.facts[Name(g.m, oldId)].(supersededBy := None)], Name(g.m, newId))
    ensures FactsTwin(g, c, c')
  {
    hide Name, FactsTwin;
    NamesDiffer(g.m, oldId, newId);
    FactNamed(g, b, b', oldId);
    FactNamed(g, b, b', newId);
    var restored := b.facts[oldId].(supersededBy := None);
    var d, d' := b.(facts := b.facts[oldId := restored]), b'.(facts := b'.facts[Name(g.m, oldId) := NameFact(g.m, restored)]);
    FactUpdateTwin(g, b, b', d, d', oldId, restored);
    FactUpdateTwin(g, d, d', c, c', newId, b.facts[newId].(expired := true));
  }

  lemma FactNamed(g: Gap, b: Brain, b': Brain, i: FactId)
    requires FactsTwin(g, b, b') && i < |b.facts| && i !in g.touched
    ensures Name(g.m, i) < |b'.facts| && b'.facts[Name(g.m, i)] == NameFact(g.m, b.facts[i])
  {
    hide Name, NameFact;
  }

  lemma OptsDiffer(m: Renaming, a: Option<FactId>, b: Option<FactId>)
    ensures NameOpt(m, a) == NameOpt(m, b) <==> a == b
  {
    if a.Some? && b.Some? { NamesDiffer(m, a.value, b.value); }
  }

  lemma RebuildTwin(g: Gap, b: Brain, b': Brain, key: Key, source: string, refs: set<FactId>, binding: ScopeBinding)
    requires Twin(g, b, b') && key.CrystalKey? && key !in g.extra && key !in b.bindings && key !in b'.bindings
    requires refs !! g.touched && forall r <- refs :: r < |b.facts|
    ensures var r, r' := Rebuild(b, key, source, refs, binding), Rebuild(b', key, source, NameSet(g.m, refs), binding);
      Twin(g, r.brain, r'.brain) && SameReply(g.m, r.reply, r'.reply)
  {
    hide Twin, Name, NameSet, NamePages, ExistingOperation, Fact.Live;
    ExistingTwin(g, b, b', key, RebuildOp, OnScope(binding));
    SizeNamed(g.m, refs);
    RefsInTwin(g, b, b', refs);
    SourcesTwin(g, b, b', refs);
    LiveTwin(g, b, b', source, refs);
    PageTwin(g, b, b', key, PageRef(source, binding, refs), binding);
    NoMissing(refs, |b.facts|);
    NoMissing(NameSet(g.m, refs), |b'.facts|);
  }

  lemma NoMissing(refs: set<FactId>, n: nat)
    ensures (forall r <- refs :: r < n) ==> !(exists r <- refs :: r >= n)
  {
  }

  lemma PageTwin(g: Gap, b: Brain, b': Brain, key: Key, page: Ref, binding: ScopeBinding)
    requires Twin(g, b, b') && key.CrystalKey? && key !in g.extra
    ensures Twin(g, Record(b.(pages := b.pages + {page}), key, RebuildOp, OnScope(binding), page).brain,
                 Record(b'.(pages := b'.pages + {NameRef(g.m, page)}), key, RebuildOp, OnScope(binding), NameRef(g.m, page)).brain)
  {
    var c := Record(b.(pages := b.pages + {page}), key, RebuildOp, OnScope(binding), page).brain;
    var c' := Record(b'.(pages := b'.pages + {NameRef(g.m, page)}), key, RebuildOp, OnScope(binding), NameRef(g.m, page)).brain;
    RecordTwin(g, b, b', c, c', key, Operation(RebuildOp, OnScope(binding), page));
    assert NamePages(g.m, b.pages + {page}) == NamePages(g.m, b.pages) + {NameRef(g.m, page)};
    hide BindingsTwin, OperationsTwin, NamePages;
  }

  lemma RefsInTwin(g: Gap, b: Brain, b': Brain, refs: set<FactId>)
    requires Twin(g, b, b') && forall r <- refs :: r < |b.facts|
    ensures forall k <- NameSet(g.m, refs) :: k < |b'.facts|
  {
    SetsNamed(g.m, refs);
    hide Name, Back, BindingsTwin, OperationsTwin, NamePages, NameSet;
    forall k <- NameSet(g.m, refs) ensures k < |b'.facts| { assert Back(g.m, k) in refs; }
  }

  lemma FactTwin(g: Gap, b: Brain, b': Brain, i: FactId)
    requires Twin(g, b, b') && i < |b.facts|
    ensures Name(g.m, i) < |b'.facts| && b'.facts[Name(g.m, i)].source == b.facts[i].source
    ensures i !in g.touched ==> b'.facts[Name(g.m, i)] == NameFact(g.m, b.facts[i])
  {
    hide BindingsTwin, OperationsTwin, NamePages, Name;
  }

  lemma SourcesTwin(g: Gap, b: Brain, b': Brain, refs: set<FactId>)
    requires Twin(g, b, b') && (forall r <- refs :: r < |b.facts|) && forall k <- NameSet(g.m, refs) :: k < |b'.facts|
    ensures (exists r <- NameSet(g.m, refs), q <- NameSet(g.m, refs) :: b'.facts[r].source != b'.facts[q].source)
       <==> (exists r <- refs, q <- refs :: b.facts[r].source != b.facts[q].source)
  {
    SetsNamed(g.m, refs);
    hide Twin, Name, Back, NameSet;
    var named := NameSet(g.m, refs);
    if r, q :| r in refs && q in refs && b.facts[r].source != b.facts[q].source {
      FactTwin(g, b, b', r);
      FactTwin(g, b, b', q);
      assert Name(g.m, r) in named && Name(g.m, q) in named;
    }
    if r, q :| r in named && q in named && b'.facts[r].source != b'.facts[q].source {
      FactTwin(g, b, b', Back(g.m, r));
      FactTwin(g, b, b', Back(g.m, q));
    }
  }

  lemma LiveTwin(g: Gap, b: Brain, b': Brain, source: string, refs: set<FactId>)
    requires Twin(g, b, b') && refs !! g.touched
    requires (forall r <- refs :: r < |b.facts|) && forall k <- NameSet(g.m, refs) :: k < |b'.facts|
    ensures (exists r <- NameSet(g.m, refs) :: b'.facts[r].source != source || !b'.facts[r].Live())
       <==> (exists r <- refs :: b.facts[r].source != source || !b.facts[r].Live())
  {
    SetsNamed(g.m, refs);
    hide Twin, Name, Back, NameSet;
    var named := NameSet(g.m, refs);
    if r :| r in refs && (b.facts[r].source != source || !b.facts[r].Live()) {
      FactTwin(g, b, b', r);
      assert Name(g.m, r) in named;
    }
    if r :| r in named && (b'.facts[r].source != source || !b'.facts[r].Live()) {
      FactTwin(g, b, b', Back(g.m, r));
    }
  }

  // ---- whole stores

  ghost predicate TwinStores(g: Gap, s: Store, s': Store) {
    && s'.ledger == NameLedger(g.m, s.ledger) && Twin(g, s.brain, s'.brain)
    && g.touched <= s.ledger.rows.Keys
    && (forall k <- g.extra :: !k.WorkerKey? && !k.CrystalKey?)
  }

  /** When its turn comes, the request leaves the gap alone: it neither names, undoes nor summarises a touched fact, nor
      uses a key of the gap. */
  predicate Apart(l: Ledger, r: Request, g: Gap) {
    match r
    case Resolving(p) =>
      && CreateKey(p.review, p.idem) !in g.extra && SupersedeKey(p.review, p.idem) !in g.extra
      && (p.target.Some? ==> p.target.value !in g.touched)
    case Reverting(p) =>
      && RestoreKey(p.review, p.idem) !in g.extra && ArchiveKey(p.review, p.idem) !in g.extra
      && RevertTouches(l, p) !! g.touched
    case Forgetting(who, ref) => ref !in g.touched && ForgetKey(Name(g.m, ref), who.workspace) !in g.extra
    case Rebuilding(who, scope, ns, idem) =>
      Sources(l.rows, ScopeBinding(who.tenant, who.user, who.workspace, scope, ns)) !! g.touched
    case _ => true
  }

  /** A new fact gets matching ids on both sides. */
  predicate Room(g: Gap, n: nat) {
    match g.m case Same => g.more == 0 case Cycle(first, last) => g.more == 1 && first <= n < last
  }

  lemma RoomNames(g: Gap, n: nat)
    requires Room(g, n)
    ensures Name(g.m, n) == n + g.more
  {
  }

  lemma OtherKeysUnbound(g: Gap, l: Ledger, b: Brain, b': Brain, k: Key)
    requires Twin(g, b, b') && KeysMatch(l, b) && k !in g.extra && !k.CreateKey? && !k.WorkerKey?
    ensures k !in b.bindings && k !in b'.bindings
  {
  }

  lemma CreationKeysAreFree(g: Gap, l: Ledger, b: Brain, b': Brain, k: Key)
    requires Twin(g, b, b') && KeysMatch(l, b) && (k.CreateKey? || k.WorkerKey?)
    ensures k !in b.operations && (k in b.bindings ==> b.bindings[k] < |b.facts|) && |b'.facts| == |b.facts| + g.more
  {
  }

  lemma ConfirmBrainTwin(g: Gap, s: Store, s': Store, p: ResolveRequest)
    requires StoreOk(s) && TwinStores(g, s, s') && Apart(s.ledger, Resolving(p), g)
    requires ResolveStop(s.ledger, p).None? && p.action.CreatesFact()
    requires CreateKey(p.review, p.idem) !in s.brain.bindings ==> Room(g, |s.brain.facts|)
    ensures ResolveStop(s'.ledger, NameResolve(g.m, p)).None?
    ensures var r, r' := ConfirmBrain(s.ledger, s.brain, p, 3), ConfirmBrain(s'.ledger, s'.brain, NameResolve(g.m, p), 3);
      Twin(g, r.brain, r'.brain) && SameReply(g.m, r.reply, r'.reply)
  {
    hide Twin, LedgerOk, KeysMatch, ResolveStop, NameLedger, Upsert, Supersede, LogsAlternate, OriginsMatch, EffectsMatch, EventsMatch,
      TombstonesMatch, CrystalsFresh, Name, Room;
    var l, b, b' := s.ledger, s.brain, s'.brain;
    var key, link, content := CreateKey(p.review, p.idem), SupersedeKey(p.review, p.idem), ResolvedPayload(l, p).content;
    ResolveStopNamed(g.m, l, p);
    LedgerParts(l);
    CreateKeyIsFresh(l, b, p);
    CreatedIsFresh(l, b, p);
    CreationKeysAreFree(g, l, b, b', key);
    if key !in b.bindings { RoomNames(g, |b.facts|); }
    UpsertTwin(g, b, b', key, p.who.tenant, content);
    var created, created' := Upsert(b, key, p.who.tenant, content), Upsert(b', key, p.who.tenant, content);
    if p.action == Supersession {
      TargetOfResolve(l, p);
      RowsInRange(l, b);
      OtherKeysUnbound(g, l, created.brain, created'.brain, link);
      SupersedeTwin(g, created.brain, created'.brain, link, p.target.value, created.reply.ref.id);
    }
  }

  /** A resolve that needs a new fact gets it, whatever else it answers. */
  lemma NewFactIsMade(s: Store, p: ResolveRequest)
    requires StoreOk(s) && ResolveStop(s.ledger, p).None? && p.action.CreatesFact() && CreateKey(p.review, p.idem) !in s.brain.bindings
    ensures |Resolve(s, p, 3).store.brain.facts| == |s.brain.facts| + 1
  {
    hide LedgerOk, ResolveStop, ConfirmRefusal, CommitConfirm;
    var created := Upsert(s.brain, CreateKey(p.review, p.idem), p.who.tenant, ResolvedPayload(s.ledger, p).content);
    assert CreateKey(p.review, p.idem) !in s.brain.operations;
    assert |created.brain.facts| == |s.brain.facts| + 1;
    hide Upsert, KeysMatch;
  }

  lemma ResolveTwin(g: Gap, s: Store, s': Store, p: ResolveRequest)
    requires StoreOk(s) && TwinStores(g, s, s') && Apart(s.ledger, Resolving(p), g)
    requires |Resolve(s, p, 3).store.brain.facts| > |s.brain.facts| ==> Room(g, |s.brain.facts|)
    ensures TwinStores(g, Resolve(s, p, 3).store, Resolve(s', NameResolve(g.m, p), 3).store)
  {
    hide Twin, LedgerOk, KeysMatch, ResolveStop, NameLedger, ConfirmBrain, ConfirmRefusal, CommitConfirm, CommitClose, Name, Room;
    var l := s.ledger;
    ResolveStopNamed(g.m, l, p);
    if ResolveStop(l, p).None? {
      if p.action.CreatesFact() {
        if CreateKey(p.review, p.idem) !in s.brain.bindings { NewFactIsMade(s, p); }
        ConfirmBrainTwin(g, s, s', p);
        var r := ConfirmBrain(l, s.brain, p, 3);
        if r.reply.Ok? {
          ConfirmRefusalNamed(g.m, l, p, r.reply.ref.id);
          ConfirmNamed(g.m, l, p.review, p.idem, p.action, ResolvedPayload(l, p), r.reply.ref.id,
                       if p.action == Supersession then p.target else None);
          ConfirmKeepsRows(l, p.review, p.idem, p.action, ResolvedPayload(l, p), r.reply.ref.id, if p.action == Supersession then p.target else None);
        }
      } else {
        CloseNamed(g.m, l, p.review, p.idem, p.action);
        CloseKeepsRows(l, p.review, p.idem, p.action);
      }
    }
    NamedOpByKey(g.m, l);
  }

  lemma ConfirmKeepsRows(l: Ledger, review: nat, idem: string, action: Action, payload: Payload, ref: FactId, target: Option<FactId>)
    requires review < |l.reviews| && l.reviews[review].origin in l.events
    ensures l.rows.Keys <= CommitConfirm(l, review, idem, action, payload, ref, target).rows.Keys
  {
  }

  lemma CloseKeepsRows(l: Ledger, review: nat, idem: string, action: Action)
    requires review < |l.reviews| && l.reviews[review].origin in l.events
    ensures l.rows.Keys <= CommitClose(l, review, idem, action).rows.Keys
  {
  }

  lemma NamedOpByKey(m: Renaming, l: Ledger)
    ensures NameLedger(m, l).opByKey == l.opByKey && NameLedger(m, l).reviews == l.reviews && |NameLedger(m, l).ops| == |l.ops|
  {
    hide NameRows, NameTombstones, NameEvents, NameReceipts, NameOrigins, NameCrystals, NameExternals;
  }

  // ---- reverts

  lemma UndoneIsKnown(l: Ledger, b: Brain, p: RevertRequest)
    requires LedgerOk(l) && KeysMatch(l, b) && RevertStop(l, p).None?
    ensures var o := l.ops[p.opId];
      && (o.action.CreatesFact() <==> o.ref.Some?) && (o.action == Supersession <==> o.target.Some?)
      && (o.ref.Some? ==> o.ref.value < |b.facts|) && (o.target.Some? ==> o.target.value < |b.facts|)
  {
    assert EffectRecorded(l, l.ops[p.opId]);
  }

  lemma RevertBrainTwin(g: Gap, s: Store, s': Store, p: RevertRequest)
    requires StoreOk(s) && TwinStores(g, s, s') && Apart(s.ledger, Reverting(p), g) && RevertStop(s.ledger, p).None?
    ensures var o := s.ledger.ops[p.opId];
      var r, r' := RevertBrain(s.brain, p, o), RevertBrain(s'.brain, p, NameOp(g.m, o));
      Twin(g, r.brain, r'.brain) && (r.reply.Ok? <==> r'.reply.Ok?)
  {
    hide Twin, LedgerOk, KeysMatch, RevertStop, NameLedger, Restore, SetExpired, Name;
    var l, b, b', o := s.ledger, s.brain, s'.brain, s.ledger.ops[p.opId];
    UndoneIsKnown(l, b, p);
    OtherKeysUnbound(g, l, b, b', RestoreKey(p.review, p.idem));
    OtherKeysUnbound(g, l, b, b', ArchiveKey(p.review, p.idem));
    assert (o.ref.Some? ==> o.ref.value in RefSet(o.ref)) && (o.target.Some? ==> o.target.value in RefSet(o.target));
    if o.target.Some? {
      RestoreTwin(g, b, b', RestoreKey(p.review, p.idem), o.target.value, o.ref.value);
    } else if o.ref.Some? {
      SetExpiredTwin(g, b, b', ArchiveKey(p.review, p.idem), o.ref.value);
    }
  }

  lemma RevertTwin(g: Gap, s: Store, s': Store, p: RevertRequest)
    requires StoreOk(s) && TwinStores(g, s, s') && Apart(s.ledger, Reverting(p), g)
    ensures TwinStores(g, RevertOp(s, p, 3).store, RevertOp(s', p, 3).store)
  {
    hide Twin, LedgerOk, KeysMatch, RevertStop, NameLedger, RevertBrain, RevertRefusal, CommitRevert, Name;
    var l := s.ledger;
    RevertStopNamed(g.m, l, p);
    if RevertStop(l, p).None? {
      OpNamed(g.m, l, p.opId);
      RevertBrainTwin(g, s, s', p);
      RevertRefusalNamed(g.m, l, p);
      RevertNamed(g.m, l, p.review, p.idem, p.opId);
      RevertKeepsRows(l, p.review, p.idem, p.opId);
    }
  }

  lemma OpNamed(m: Renaming, l: Ledger, i: nat)
    requires i < |l.ops|
    ensures |NameLedger(m, l).ops| == |l.ops| && NameLedger(m, l).ops[i] == NameOp(m, l.ops[i])
    ensures NameOp(m, l.ops[i]).action == l.ops[i].action
  {
    hide NameRows, NameTombstones, NameEvents, NameReceipts, NameOrigins, NameCrystals, NameExternals;
  }

  lemma RevertKeepsRows(l: Ledger, review: nat, idem: string, opId: nat)
    requires review < |l.reviews| && l.reviews[review].origin in l.events && opId < |l.ops|
    ensures l.rows.Keys <= CommitRevert(l, review, idem, opId).rows.Keys
  {
  }

  // ---- the other requests

  lemma ForgetTwin(g: Gap, s: Store, s': Store, who: Principal, ref: FactId)
    requires StoreOk(s) && TwinStores(g, s, s') && Apart(s.ledger, Forgetting(who, ref), g)
    ensures TwinStores(g, Forget(s, who, ref, 3).store, Forget(s', who, Name(g.m, ref), 3).store)
  {
    hide Twin, LedgerOk, KeysMatch, SetExpired, CommitForget, Name, NameRows, NameTombstones, NameEvents, NameReceipts, NameOps, NameOrigins,
      NameCrystals, NameExternals;
    var l, b, b', key := s.ledger, s.brain, s'.brain, ForgetKey(ref, who.workspace);
    RowIn(g.m, l.rows, ref);
    if ref in l.rows {
      RowsInRange(l, b);
      OtherKeysUnbound(g, l, b, b', NameKey(g.m, key));
      ForgetKeyUnbound(l, b, key);
      SetExpiredTwin(g, b, b', key, ref);
      ForgetNamed(g.m, l, ref, who.tenant, who.user);
      ForgetKeepsRows(l, ref, who.tenant, who.user);
    }
    hide NameLedger;
  }

  lemma ForgetKeyUnbound(l: Ledger, b: Brain, key: Key)
    requires KeysMatch(l, b) && key.ForgetKey?
    ensures key !in b.bindings
  {
  }

  lemma ForgetKeepsRows(l: Ledger, ref: FactId, tenant: string, user: string)
    requires ref in l.rows
    ensures l.rows.Keys <= CommitForget(l, ref, tenant, user).rows.Keys
  {
  }

  lemma RebuildCrystalTwin(g: Gap, s: Store, s': Store, who: Principal, scope: Scope, ns: string, idem: string)
    requires StoreOk(s) && TwinStores(g, s, s') && Apart(s.ledger, Rebuilding(who, scope, ns, idem), g)
    ensures TwinStores(g, RebuildCrystal(s, who, scope, ns, idem, 3).store, RebuildCrystal(s', who, scope, ns, idem, 3).store)
  {
    hide Twin, LedgerOk, KeysMatch, Rebuild, CommitRebuild, NameLedger, NameRows, NameSet, Sources;
    var l, b, b' := s.ledger, s.brain, s'.brain;
    var binding := ScopeBinding(who.tenant, who.user, who.workspace, scope, ns);
    var refs, key := Sources(l.rows, binding), CrystalKey(binding, idem);
    NamedTables(g.m, l);
    SourcesNamed(g.m, l.rows, binding);
    SizeNamed(g.m, refs);
    RebuildStepTwin(g, s, s', key, who.tenant, binding);
    var step, step' := Rebuild(b, key, who.tenant, refs, binding), Rebuild(b', key, who.tenant, NameSet(g.m, refs), binding);
    RebuiltTwin(g, s, s', step.brain, step'.brain, binding, refs);
  }

  lemma RebuildStepTwin(g: Gap, s: Store, s': Store, key: Key, source: string, binding: ScopeBinding)
    requires StoreOk(s) && TwinStores(g, s, s') && key.CrystalKey? && Sources(s.ledger.rows, binding) !! g.touched
    ensures var refs := Sources(s.ledger.rows, binding);
      var r, r' := Rebuild(s.brain, key, source, refs, binding), Rebuild(s'.brain, key, source, NameSet(g.m, refs), binding);
      Twin(g, r.brain, r'.brain) && (r.reply.Ok? <==> r'.reply.Ok?)
  {
    hide Twin, LedgerOk, KeysMatch, Rebuild, NameLedger, NameSet, Sources;
    SourcesKnown(s.ledger, s.brain, binding);
    OtherKeysUnbound(g, s.ledger, s.brain, s'.brain, key);
    RebuildTwin(g, s.brain, s'.brain, key, source, Sources(s.ledger.rows, binding), binding);
  }

  /** The ledger half, written or not. */
  lemma RebuiltTwin(g: Gap, s: Store, s': Store, c: Brain, c': Brain, binding: ScopeBinding, refs: set<FactId>)
    requires TwinStores(g, s, s')
    ensures Twin(g, c, c') ==> TwinStores(g, Store(s.ledger, c), Store(s'.ledger, c'))
    ensures Twin(g, c, c') ==>
      TwinStores(g, Store(CommitRebuild(s.ledger, binding, refs), c), Store(CommitRebuild(s'.ledger, binding, NameSet(g.m, refs)), c'))
  {
    hide Twin, NameLedger, CommitRebuild, NameSet;
    RebuildNamed(g.m, s.ledger, binding, refs);
    RebuildKeepsRows(s.ledger, binding, refs);
  }

  lemma NamedTables(m: Renaming, l: Ledger)
    ensures NameLedger(m, l).rows == NameRows(m, l.rows) && NameLedger(m, l).events == NameEvents(m, l.events)
    ensures NameLedger(m, l).externals == NameExternals(m, l.externals) && NameLedger(m, l).rowByOrigin == NameOrigins(m, l.rowByOrigin)
  {
  }

  lemma SourcesKnown(l: Ledger, b: Brain, binding: ScopeBinding)
    requires KeysMatch(l, b)
    ensures forall r <- Sources(l.rows, binding) :: r < |b.facts|
  {
  }

  lemma RebuildKeepsRows(l: Ledger, binding: ScopeBinding, refs: set<FactId>)
    ensures CommitRebuild(l, binding, refs).rows == l.rows
  {
  }

  lemma SubmitTwin(g: Gap, s: Store, s': Store, who: Principal, id: string, scope: Scope, payload: Payload)
    requires TwinStores(g, s, s')
    ensures TwinStores(g, Submit(s, who, id, scope, payload).store, Submit(s', who, id, scope, payload).store)
  {
    hide Twin, NameRows, NameTombstones, NameEvents, NameReceipts, NameOps, NameOrigins, NameCrystals, NameExternals;
    var key := EventKey(who.device, id);
    EventNamed(g.m, s.ledger.events, key);
    SubmitNamed(g.m, s.ledger, key, Event(who.tenant, who.user, who.agent, who.workspace, scope, payload, Pending, None, None, None, 0));
  }

  lemma WorkerGuardsNamed(m: Renaming, l: Ledger, key: EventKey, x: ExternalKey, ref: FactId)
    ensures Due(NameLedger(m, l), key) <==> Due(l, key)
    ensures key in l.events ==> key in NameLedger(m, l).events && NameLedger(m, l).events[key] == NameEvent(m, l.events[key])
    ensures x in NameLedger(m, l).externals <==> x in l.externals
    ensures x in l.externals ==> NameLedger(m, l).externals[x].backendRef == NameOpt(m, l.externals[x].backendRef)
    ensures Name(m, ref) in NameLedger(m, l).rows <==> ref in l.rows
    ensures key in NameLedger(m, l).rowByOrigin <==> key in l.rowByOrigin
  {
    NamedTables(m, l);
    EventNamed(m, l.events, key);
    RowIn(m, l.rows, ref);
    hide NameLedger, NameRows, NameEvents, Name;
  }

  lemma WorkerUpsertTwin(g: Gap, s: Store, s': Store, key: EventKey)
    requires StoreOk(s) && TwinStores(g, s, s') && Due(s.ledger, key)
    requires WorkerKey(key) !in s.brain.bindings ==> Room(g, |s.brain.facts|)
    ensures var e := s.ledger.events[key];
      var r, r' := Upsert(s.brain, WorkerKey(key), e.tenant, e.payload.content), Upsert(s'.brain, WorkerKey(key), e.tenant, e.payload.content);
      Twin(g, r.brain, r'.brain) && r.reply.Ok? && SameReply(g.m, r.reply, r'.reply)
  {
    hide Twin, LedgerOk, KeysMatch, Upsert, NameLedger, Room, Name;
    var e := s.ledger.events[key];
    CreationKeysAreFree(g, s.ledger, s.brain, s'.brain, WorkerKey(key));
    if WorkerKey(key) !in s.brain.bindings { RoomNames(g, |s.brain.facts|); }
    UpsertTwin(g, s.brain, s'.brain, WorkerKey(key), e.tenant, e.payload.content);
  }

  /** The worker's last branch: the fact is in GBrain, the bookkeeping follows unless the source event has a row. */
  function Kept(l: Ledger, b: Brain, key: EventKey, ref: FactId): Store
    requires key in l.events
  {
    if ref !in l.rows && key in l.rowByOrigin then Store(l, b) else Store(CommitApplied(l, key, ref), b)
  }

  lemma KeptTwin(g: Gap, s: Store, s': Store, c: Brain, c': Brain, key: EventKey, ref: FactId)
    requires TwinStores(g, s, s') && Twin(g, c, c') && key in s.ledger.events
    ensures key in s'.ledger.events
    ensures TwinStores(g, Kept(s.ledger, c, key, ref), Kept(s'.ledger, c', key, Name(g.m, ref)))
  {
    hide Twin, NameLedger, CommitApplied, Name;
    AppliedNamed(g.m, s.ledger, key, ref);
    WorkerGuardsNamed(g.m, s.ledger, key, ExternalKey("", "", "", Provenance("", "", "")), ref);
    AppliedGrowsRows(s.ledger, key, ref);
  }

  lemma AppliedGrowsRows(l: Ledger, key: EventKey, ref: FactId)
    requires key in l.events
    ensures l.rows.Keys <= CommitApplied(l, key, ref).rows.Keys
  {
  }

  lemma EventCommitsTwin(g: Gap, s: Store, s': Store, key: EventKey, found: Option<FactId>)
    requires TwinStores(g, s, s') && key in s.ledger.events
    ensures key in s'.ledger.events
    ensures TwinStores(g, s.(ledger := CommitReview(s.ledger, key)), s'.(ledger := CommitReview(s'.ledger, key)))
    ensures TwinStores(g, s.(ledger := CommitRetry(s.ledger, key)), s'.(ledger := CommitRetry(s'.ledger, key)))
    ensures TwinStores(g, s.(ledger := CommitDeadLetter(s.ledger, key)), s'.(ledger := CommitDeadLetter(s'.ledger, key)))
    ensures TwinStores(g, s.(ledger := CommitDuplicate(s.ledger, key, found)), s'.(ledger := CommitDuplicate(s'.ledger, key, NameOpt(g.m, found))))
  {
    hide Twin, NameLedger, CommitReview, CommitRetry, CommitDeadLetter, CommitDuplicate;
    ReviewNamed(g.m, s.ledger, key);
    FailuresNamed(g.m, s.ledger, key);
    DuplicateNamed(g.m, s.ledger, key, found);
    EventCommitsSameRows(s.ledger, key, found);
  }

  lemma EventCommitsSameRows(l: Ledger, key: EventKey, found: Option<FactId>)
    requires key in l.events
    ensures CommitReview(l, key).rows == l.rows && CommitRetry(l, key).rows == l.rows && CommitDeadLetter(l, key).rows == l.rows
    ensures CommitDuplicate(l, key, found).rows == l.rows
  {
  }

  /** A complete pass, by the four cases of its outcome. */
  lemma PassCases(s: Store, key: EventKey, luck: Luck)
    requires Due(s.ledger, key)
    ensures var l, e := s.ledger, s.ledger.events[key];
      var x := ExternalKeyOf(e, if e.payload.provenance.Some? then e.payload.provenance.value else Provenance("", "", ""));
      var step := Upsert(s.brain, WorkerKey(key), e.tenant, e.payload.content);
      WorkerPass(s, key, luck, 3).store ==
        if luck == Unreadable then s.(ledger := CommitDeadLetter(l, key))
        else if e.payload.provenance.Some? && x in l.externals then s.(ledger := CommitDuplicate(l, key, l.externals[x].backendRef))
        else if e.payload.instruction || !e.payload.userExplicit then s.(ledger := CommitReview(l, key))
        else if luck == TextRejected then s.(ledger := CommitDeadLetter(l, key))
        else if luck == BackendDown || step.reply.Fail? then s.(ledger := CommitRetry(l, key))
        else Kept(l, step.brain, key, step.reply.ref.id)
  {
    hide CommitApplied, CommitReview, CommitRetry, CommitDeadLetter, CommitDuplicate, Upsert;
  }

  /** A pass that upserts a fact GBrain does not have leaves one more. */
  lemma PassMakesFact(s: Store, key: EventKey, luck: Luck)
    requires StoreOk(s) && Due(s.ledger, key) && WorkerKey(key) !in s.brain.bindings
    requires var e := s.ledger.events[key];
      WorkerPass(s, key, luck, 3).store.brain == Upsert(s.brain, WorkerKey(key), e.tenant, e.payload.content).brain
    ensures |WorkerPass(s, key, luck, 3).store.brain.facts| == |s.brain.facts| + 1
  {
    hide LedgerOk, WorkerPass;
    assert WorkerKey(key) !in s.brain.operations;
  }

  lemma WorkerTwin(g: Gap, s: Store, s': Store, key: EventKey, luck: Luck)
    requires StoreOk(s) && TwinStores(g, s, s') && Due(s.ledger, key)
    requires |WorkerPass(s, key, luck, 3).store.brain.facts| > |s.brain.facts| ==> Room(g, |s.brain.facts|)
    ensures Due(s'.ledger, key) && TwinStores(g, WorkerPass(s, key, luck, 3).store, WorkerPass(s', key, luck, 3).store)
  {
    hide Twin, LedgerOk, KeysMatch, NameLedger, Upsert, CommitApplied, CommitReview, CommitRetry, CommitDeadLetter, CommitDuplicate, WorkerPass,
      Kept, Room, TwinStores, Name;
    var l, e := s.ledger, s.ledger.events[key];
    TwinLedger(g, s, s');
    var x := ExternalKeyOf(e, if e.payload.provenance.Some? then e.payload.provenance.value else Provenance("", "", ""));
    WorkerGuardsNamed(g.m, l, key, x, 0);
    PassCases(s, key, luck);
    PassCases(s', key, luck);
    EventCommitsTwin(g, s, s', key, if x in l.externals then l.externals[x].backendRef else None);
    if luck == Decrypts && !(e.payload.provenance.Some? && x in l.externals) && !e.payload.instruction && e.payload.userExplicit {
      var step := Upsert(s.brain, WorkerKey(key), e.tenant, e.payload.content);
      var step' := Upsert(s'.brain, WorkerKey(key), e.tenant, e.payload.content);
      WorkerKeyIsFree(s, key);
      KeptBrain(l, step.brain, key, step.reply.ref.id);
      if WorkerKey(key) !in s.brain.bindings { PassMakesFact(s, key, luck); }
      WorkerUpsertTwin(g, s, s', key);
      KeptTwin(g, s, s', step.brain, step'.brain, key, step.reply.ref.id);
    }
  }

  lemma WorkerKeyIsFree(s: Store, key: EventKey)
    requires StoreOk(s) && Due(s.ledger, key)
    ensures Upsert(s.brain, WorkerKey(key), s.ledger.events[key].tenant, s.ledger.events[key].payload.content).reply.Ok?
  {
    hide LedgerOk;
  }

  lemma KeptBrain(l: Ledger, b: Brain, key: EventKey, ref: FactId)
    requires key in l.events
    ensures Kept(l, b, key, ref).brain == b
  {
  }

  lemma TwinLedger(g: Gap, s: Store, s': Store)
    requires TwinStores(g, s, s')
    ensures s'.ledger == NameLedger(g.m, s.ledger)
  {
  }

  /** Every request that leaves the gap alone keeps the two stores twins. */
  lemma ServeTwin(g: Gap, s: Store, s': Store, r: Request)
    requires StoreOk(s) && TwinStores(g, s, s') && Apart(s.ledger, r, g)
    requires |Serve(s, r, 3).brain.facts| > |s.brain.facts| ==> Room(g, |s.brain.facts|)
    ensures TwinStores(g, Serve(s, r, 3), Serve(s', NameRequest(g.m, r), 3))
  {
    hide TwinStores, StoreOk, Apart, Resolve, RevertOp, WorkerPass, Submit, Forget, RebuildCrystal, Room, Name;
    match r
    case Submitting(who, id, scope, payload) => SubmitTwin(g, s, s', who, id, scope, payload);
    case Working(key, luck) =>
      TwinLedger(g, s, s');
      WorkerGuardsNamed(g.m, s.ledger, key, ExternalKey("", "", "", Provenance("", "", "")), 0);
      if Due(s.ledger, key) { WorkerTwin(g, s, s', key, luck); }
    case Resolving(p) => ResolveTwin(g, s, s', p);
    case Reverting(p) => RevertTwin(g, s, s', p);
    case Forgetting(who, ref) => ForgetTwin(g, s, s', who, ref);
    case Rebuilding(who, scope, ns, idem) => RebuildCrystalTwin(g, s, s', who, scope, ns, idem);
  }
}
