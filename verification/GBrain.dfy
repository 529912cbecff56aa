/** The second store: facts, idempotency tables and crystal pages of GBrain
    (src/agent_memory_gateway/gbrain_backend.py). Every function below is one committed transaction. */
module GBrain {
  import opened Names

  /** source_session keeps the key the fact was created under. */
  datatype Fact = Fact(source: string, content: string, session: Key, expired: bool, supersededBy: Option<FactId>) {
    predicate Live() {
      !expired && supersededBy.None?
    }
  }

  /** The idempotency keys the gateway derives; each real key is a hash of the listed parts. */
  datatype Key =
    | WorkerKey(origin: EventKey)
    | CreateKey(review: nat, idem: string)
    | SupersedeKey(review: nat, idem: string)
    | RestoreKey(review: nat, idem: string)
    | ArchiveKey(review: nat, idem: string)
    | ForgetKey(ref: FactId, workspace: string)
    | CrystalKey(binding: ScopeBinding, idem: string)

  datatype Kind = SupersedeOp | ArchiveOp | TombstoneOp | ReactivateOp | RestoreOp | RebuildOp

  datatype Target = OnFact(id: FactId) | OnPair(oldId: FactId, newId: FactId) | OnScope(binding: ScopeBinding)

  /** A page is identified by its slug: the scope and the set of source references. */
  datatype Ref = FactRef(id: FactId) | PageRef(source: string, binding: ScopeBinding, refs: set<FactId>)

  datatype Operation = Operation(kind: Kind, target: Target, result: Ref)

  /** Fact ids are serial, so a fact's id is its index; every fact is inserted together with its binding. */
  datatype Brain = Brain(facts: seq<Fact>, bindings: map<Key, FactId>, operations: map<Key, Operation>, pages: set<Ref>)

  datatype BrainError = KeyReuse | SupersedeSelf | NotManaged | ScopeMismatch | StateConflict | SourceCountInvalid

  datatype Reply = Ok(ref: Ref) | Fail(error: BrainError)

  datatype Step = Step(brain: Brain, reply: Reply)

  const EMPTY_BRAIN := Brain([], map[], map[], {})

  /** The reply of an operation already recorded under the key, or a refusal to reuse the key for something else. */
  function ExistingOperation(b: Brain, key: Key, kind: Kind, target: Target): Option<Reply> {
    if key !in b.operations then
      if key in b.bindings then Some(Fail(KeyReuse)) else None
    else if b.operations[key].kind != kind || b.operations[key].target != target then
      Some(Fail(KeyReuse))
    else
      Some(Ok(b.operations[key].result))
  }

  function Record(b: Brain, key: Key, kind: Kind, target: Target, result: Ref): Step {
    Step(b.(operations := b.operations[key := Operation(kind, target, result)]), Ok(result))
  }

  predicate Tombstoned(b: Brain, id: FactId) {
    exists key <- b.operations :: b.operations[key].kind == TombstoneOp && b.operations[key].target == OnFact(id)
  }

  function Expire(facts: seq<Fact>, id: FactId): seq<Fact>
    requires id < |facts|
  {
    facts[id := facts[id].(expired := true)]
  }

  function Upsert(b: Brain, key: Key, source: string, content: string): (step: Step)
    ensures step.reply.Ok? ==> step.reply.ref.FactRef?
    ensures step.reply.Fail? ==> step.brain == b
  {
    if key in b.operations then
      Step(b, Fail(KeyReuse))
    else if key in b.bindings then
      Step(b, Ok(FactRef(b.bindings[key])))
    else
      var id := |b.facts|;
      Step(b.(facts := b.facts + [Fact(source, content, key, false, None)], bindings := b.bindings[key := id]), Ok(FactRef(id)))
  }

  function Supersede(b: Brain, key: Key, oldId: FactId, newId: FactId): Step {
    if oldId == newId then
      Step(b, Fail(SupersedeSelf))
    else
      match ExistingOperation(b, key, SupersedeOp, OnFact(oldId))
      case Some(reply) => Step(b, reply)
      case None =>
        if oldId >= |b.facts| || newId >= |b.facts| then
          Step(b, Fail(NotManaged))
        else if b.facts[oldId].source != b.facts[newId].source then
          Step(b, Fail(ScopeMismatch))
        else if !b.facts[oldId].Live() || !b.facts[newId].Live() then
          Step(b, Fail(StateConflict))
        else
          Record(b.(facts := b.facts[oldId := b.facts[oldId].(supersededBy := Some(newId))]),
                 key, SupersedeOp, OnFact(oldId), FactRef(newId))
  }

  /** archive and tombstone share this transaction; only archive refuses a tombstoned fact. */
  function SetExpired(b: Brain, key: Key, id: FactId, kind: Kind): Step {
    match ExistingOperation(b, key, kind, OnFact(id))
    case Some(reply) => Step(b, reply)
    case None =>
      if id >= |b.facts| then
        Step(b, Fail(NotManaged))
      else if kind == ArchiveOp && Tombstoned(b, id) then
        Step(b, Fail(StateConflict))
      else
        Record(b.(facts := Expire(b.facts, id)), key, kind, OnFact(id), FactRef(id))
  }

  /** Undo one supersession: the old fact is live again and the new one is archived. */
  function Restore(b: Brain, key: Key, oldId: FactId, newId: FactId): Step {
    if oldId == newId then
      Step(b, Fail(SupersedeSelf))
    else
      match ExistingOperation(b, key, RestoreOp, OnPair(oldId, newId))
      case Some(reply) => Step(b, reply)
      case None =>
        if oldId >= |b.facts| || newId >= |b.facts| then
          Step(b, Fail(NotManaged))
        else if b.facts[oldId].source != b.facts[newId].source then
          Step(b, Fail(ScopeMismatch))
        else if b.facts[oldId].expired || b.facts[oldId].supersededBy != Some(newId) then
          Step(b, Fail(StateConflict))
        else
          Record(b.(facts := Expire(b.facts[oldId := b.facts[oldId].(supersededBy := None)], newId)),
                 key, RestoreOp, OnPair(oldId, newId), FactRef(oldId))
  }

  function Reactivate(b: Brain, key: Key, id: FactId): Step {
    match ExistingOperation(b, key, ReactivateOp, OnFact(id))
    case Some(reply) => Step(b, reply)
    case None =>
      if id >= |b.facts| then
        Step(b, Fail(NotManaged))
      else if !b.facts[id].expired || b.facts[id].supersededBy.Some? || Tombstoned(b, id) then
        Step(b, Fail(StateConflict))
      else
        Record(b.(facts := b.facts[id := b.facts[id].(expired := false)]), key, ReactivateOp, OnFact(id), FactRef(id))
  }

  /** Build or refresh the page of a scope. A reused key returns the page of its first use. */
  function Rebuild(b: Brain, key: Key, source: string, refs: set<FactId>, binding: ScopeBinding): Step {
    if |refs| < 2 || |refs| > 100 then
      Step(b, Fail(SourceCountInvalid))
    else
      match ExistingOperation(b, key, RebuildOp, OnScope(binding))
      case Some(reply) => Step(b, reply)
      case None =>
        if exists r <- refs :: r >= |b.facts| then
          Step(b, Fail(NotManaged))
        else if exists r <- refs, q <- refs :: b.facts[r].source != b.facts[q].source then
          Step(b, Fail(ScopeMismatch))
        else if exists r <- refs :: b.facts[r].source != source || !b.facts[r].Live() then
          Step(b, Fail(StateConflict))
        else
          var page := PageRef(source, binding, refs);
          Record(b.(pages := b.pages + {page}), key, RebuildOp, OnScope(binding), page)
  }
}
