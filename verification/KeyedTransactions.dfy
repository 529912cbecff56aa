/** What the keyed transactions of GBrain (src/agent_memory_gateway/gbrain_backend.py) do the first time, and that the
    same call never does anything a second time, whatever else runs in between. */
module KeyedTransactions {
  import opened Names
  import opened GBrain
  import opened SupersedeGraph

  function StepOf(b: Brain, call: Call): Step {
    match call
    case UpsertCall(key, source, content) => Upsert(b, key, source, content)
    case SupersedeCall(key, oldId, newId) => Supersede(b, key, oldId, newId)
    case ExpireCall(key, id, tombstone) => SetExpired(b, key, id, if tombstone then TombstoneOp else ArchiveOp)
    case RestoreCall(key, oldId, newId) => Restore(b, key, oldId, newId)
    case ReactivateCall(key, id) => Reactivate(b, key, id)
    case RebuildCall(key, source, refs, binding) => Rebuild(b, key, source, refs, binding)
  }

  lemma StepApplies(b: Brain, call: Call)
    ensures Apply(b, call) == StepOf(b, call).brain
  {
  }

  // ---- a key that is used for the first time

  predicate Unused(b: Brain, key: Key) {
    key !in b.operations && key !in b.bindings
  }

  predicate InForce(b: Brain, id: FactId) {
    id < |b.facts| && !b.facts[id].expired && b.facts[id].supersededBy.None?
  }

  predicate HasTombstone(b: Brain, id: FactId) {
    exists k <- b.operations :: b.operations[k].kind == TombstoneOp && b.operations[k].target == OnFact(id)
  }

  /** The facts are as before, but for one. */
  predicate OnlyFact(b: Brain, b': Brain, id: FactId, fact: Fact) {
    id < |b.facts| && b'.facts == b.facts[id := fact] && b'.bindings == b.bindings && b'.pages == b.pages
  }

  /** Under an unused key each transaction goes through exactly under its own condition on the facts and then does
      exactly this to them; otherwise it leaves GBrain alone. */
  lemma FirstUse(b: Brain, call: Call)
    requires Unused(b, call.key)
    ensures var step := StepOf(b, call);
      && (step.reply.Fail? ==> step.brain == b)
      && match call
         case UpsertCall(key, source, content) =>
           && step.reply == Ok(FactRef(|b.facts|)) && step.brain.facts == b.facts + [Fact(source, content, key, false, None)]
           && step.brain.bindings == b.bindings[key := |b.facts|] && step.brain.operations == b.operations
         case SupersedeCall(_, oldId, newId) =>
           && (step.reply.Ok? <==> oldId != newId && InForce(b, oldId) && InForce(b, newId) && b.facts[oldId].source == b.facts[newId].source)
           && (step.reply.Ok? ==> step.reply.ref == FactRef(newId) && OnlyFact(b, step.brain, oldId, b.facts[oldId].(supersededBy := Some(newId))))
         case ExpireCall(_, id, tombstone) =>
           && (step.reply.Ok? <==> id < |b.facts| && (tombstone || !HasTombstone(b, id)))
           && (step.reply.Ok? ==> step.reply.ref == FactRef(id) && OnlyFact(b, step.brain, id, b.facts[id].(expired := true)))
           && (step.reply.Ok? ==> (HasTombstone(step.brain, id) <==> tombstone))
         case ReactivateCall(_, id) =>
           && (step.reply.Ok? <==> id < |b.facts| && b.facts[id].expired && b.facts[id].supersededBy.None? && !HasTombstone(b, id))
           && (step.reply.Ok? ==> step.reply.ref == FactRef(id) && OnlyFact(b, step.brain, id, b.facts[id].(expired := false)))
         case RestoreCall(_, oldId, newId) =>
           && (step.reply.Ok? <==>
                && oldId != newId && oldId < |b.facts| && newId < |b.facts| && b.facts[oldId].source == b.facts[newId].source
                && !b.facts[oldId].expired && b.facts[oldId].supersededBy == Some(newId))
           && (step.reply.Ok? ==> step.reply.ref == FactRef(oldId))
           && (step.reply.Ok? ==> step.brain.facts == b.facts[oldId := b.facts[oldId].(supersededBy := None)][newId := b.facts[newId].(expired := true)])
         case RebuildCall(_, source, refs, binding) =>
           && (step.reply.Ok? <==> 2 <= |refs| <= 100 && forall r <- refs :: InForce(b, r) && b.facts[r].source == source)
           && (step.reply.Ok? ==> step.brain.facts == b.facts && step.brain.pages == b.pages + {PageRef(source, binding, refs)})
  {
    if call.ExpireCall? {
      var step := StepOf(b, call);
      if step.reply.Ok? { assert call.key in step.brain.operations; }
    } else if call.RebuildCall? {
      FirstRebuild(b, call.key, call.source, call.refs, call.binding);
    }
  }

  lemma FirstRebuild(b: Brain, key: Key, source: string, refs: set<FactId>, binding: ScopeBinding)
    requires Unused(b, key)
    ensures var step := Rebuild(b, key, source, refs, binding);
      step.reply.Ok? <==> 2 <= |refs| <= 100 && forall r <- refs :: InForce(b, r) && b.facts[r].source == source
  {
  }

  // ---- a key that was used before

  /** No key stands for a fact and for another operation at once. */
  ghost predicate KeysApart(b: Brain) {
    forall k <- b.bindings :: k !in b.operations
  }

  lemma ApplyKeepsApart(b: Brain, call: Call)
    requires KeysApart(b)
    ensures KeysApart(Apply(b, call))
    ensures forall k <- b.bindings :: k in Apply(b, call).bindings && Apply(b, call).bindings[k] == b.bindings[k]
  {
    hide Tombstoned;
  }

  lemma {:induction false} RunKeepsKeys(b: Brain, calls: seq<Call>)
    requires KeysApart(b)
    ensures KeysApart(Run(b, calls))
    ensures forall k <- b.bindings :: k in Run(b, calls).bindings && Run(b, calls).bindings[k] == b.bindings[k]
    ensures forall k <- b.operations :: k in Run(b, calls).operations && Run(b, calls).operations[k] == b.operations[k]
    decreases |calls|
  {
    hide Apply, KeysApart;
    if calls != [] {
      ApplyKeepsApart(b, calls[0]);
      OperationsStay(b, calls[0]);
      RunKeepsKeys(Apply(b, calls[0]), calls[1..]);
    }
  }

  /** What a call that went through leaves behind under its key is enough to answer it again. */
  ghost predicate Answered(b: Brain, call: Call, reply: Reply) {
    && KeysApart(b) && reply.Ok?
    && match call
       case UpsertCall(key, _, _) => key in b.bindings && reply == Ok(FactRef(b.bindings[key]))
       case SupersedeCall(key, oldId, newId) =>
         oldId != newId && key in b.operations && b.operations[key] == Operation(SupersedeOp, OnFact(oldId), reply.ref)
       case ExpireCall(key, id, tombstone) =>
         key in b.operations && b.operations[key] == Operation(if tombstone then TombstoneOp else ArchiveOp, OnFact(id), reply.ref)
       case RestoreCall(key, oldId, newId) =>
         oldId != newId && key in b.operations && b.operations[key] == Operation(RestoreOp, OnPair(oldId, newId), reply.ref)
       case ReactivateCall(key, id) => key in b.operations && b.operations[key] == Operation(ReactivateOp, OnFact(id), reply.ref)
       case RebuildCall(key, _, refs, binding) =>
         2 <= |refs| <= 100 && key in b.operations && b.operations[key] == Operation(RebuildOp, OnScope(binding), reply.ref)
  }

  lemma CallIsAnswered(b: Brain, call: Call)
    requires KeysApart(b) && StepOf(b, call).reply.Ok?
    ensures Answered(StepOf(b, call).brain, call, StepOf(b, call).reply)
  {
    hide Tombstoned, KeysApart;
    StepApplies(b, call);
    ApplyKeepsApart(b, call);
    assert KeysApart(StepOf(b, call).brain);
  }

  lemma AnsweredAgain(b: Brain, call: Call, reply: Reply)
    requires Answered(b, call, reply)
    ensures StepOf(b, call) == Step(b, reply)
  {
    hide Tombstoned;
  }

  lemma StaysAnswered(b: Brain, b': Brain, call: Call, reply: Reply)
    requires Answered(b, call, reply) && KeysApart(b')
    requires forall k <- b.bindings :: k in b'.bindings && b'.bindings[k] == b.bindings[k]
    requires forall k <- b.operations :: k in b'.operations && b'.operations[k] == b.operations[k]
    ensures Answered(b', call, reply)
  {
  }

  /** In every state GBrain can reach, a call that went through is answered the same however often and however much later
      it is repeated, and the repetition changes nothing. */
  lemma RepeatIsIdle(before: seq<Call>, call: Call, between: seq<Call>)
    requires StepOf(Run(EMPTY_BRAIN, before), call).reply.Ok?
    ensures var b := Run(EMPTY_BRAIN, before); var later := Run(StepOf(b, call).brain, between);
      StepOf(later, call) == Step(later, StepOf(b, call).reply)
  {
    hide StepOf, Run, KeysApart, Answered;
    assert KeysApart(EMPTY_BRAIN) by { EmptyApart(); }
    RunKeepsKeys(EMPTY_BRAIN, before);
    var b := Run(EMPTY_BRAIN, before);
    var b1, reply := StepOf(b, call).brain, StepOf(b, call).reply;
    CallIsAnswered(b, call);
    AnsweredApart(b1, call, reply);
    RunKeepsKeys(b1, between);
    StaysAnswered(b1, Run(b1, between), call, reply);
    AnsweredAgain(Run(b1, between), call, reply);
  }

  lemma EmptyApart()
    ensures KeysApart(EMPTY_BRAIN)
  {
  }

  lemma AnsweredApart(b: Brain, call: Call, reply: Reply)
    requires Answered(b, call, reply)
    ensures KeysApart(b)
  {
  }

  /** The key of a call that went through serves no call of another kind, or on another fact, pair or scope: that one is
      turned away and changes nothing. */
  lemma KeyServesOneOperation(b: Brain, call: Call, reply: Reply, other: Call)
    requires Answered(b, call, reply) && other.key == call.key && !SameOperation(call, other)
    requires other.RebuildCall? ==> 2 <= |other.refs| <= 100
    requires other.SupersedeCall? || other.RestoreCall? ==> other.oldId != other.newId
    ensures StepOf(b, other) == Step(b, Fail(KeyReuse))
  {
    hide Tombstoned;
  }

  /** The same transaction on the same target; the text of a fact, the successor and the sources of a page are not compared. */
  predicate SameOperation(a: Call, b: Call) {
    || (a.UpsertCall? && b.UpsertCall?)
    || (a.SupersedeCall? && b.SupersedeCall? && a.oldId == b.oldId)
    || (a.ExpireCall? && b.ExpireCall? && a.id == b.id && a.tombstone == b.tombstone)
    || (a.RestoreCall? && b.RestoreCall? && a.oldId == b.oldId && a.newId == b.newId)
    || (a.ReactivateCall? && b.ReactivateCall? && a.id == b.id)
    || (a.RebuildCall? && b.RebuildCall? && a.binding == b.binding)
  }
}
