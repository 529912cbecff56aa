/** Whose memories a query delivers (src/agent_memory_gateway/query_service.py), in every state a run reaches. The
    sharing rule is written out here on the fields of events and rows, apart from the query that applies it. */
module Isolation {
  import opened Names
  import opened GBrain
  import opened Ledger
  import opened Lifecycle
  import opened LedgerInvariants
  import opened AllRuns
  import opened StoreAgreement
  import opened Visibility
  import opened EventTrails

  /** The sharing rule of the five scopes, for a principal of the event's own tenant and user. */
  predicate SharedWith(k: EventKey, e: Event, who: Principal) {
    || e.scope == UserScope
    || (e.scope == WorkspaceScope && e.workspace == who.workspace)
    || (e.scope == DeviceScope && k.device == who.device)
    || (e.scope == AgentScope && e.agent == who.agent)
    || (e.scope == PrivateScope && k.device == who.device && e.agent == who.agent)
  }

  /** An event captured for the principal's tenant and user leads to the memory and is shared with the principal. */
  ghost predicate LedBySharedEvent(l: Ledger, r: FactId, who: Principal) {
    exists k <- l.events ::
      && l.events[k].backendRef == Some(r) && l.events[k].tenant == who.tenant && l.events[k].user == who.user
      && SharedWith(k, l.events[k], who)
  }

  /** The ledger's half of the answer: an active memory of the owner that is no instruction, reached by a shared event. */
  ghost predicate Entitled(l: Ledger, r: FactId, who: Principal) {
    && r in l.rows && l.rows[r].binding.tenant == who.tenant && l.rows[r].binding.user == who.user
    && l.rows[r].status == Active && !l.rows[r].instruction
    && LedBySharedEvent(l, r, who)
  }

  /** GBrain's half: the fact is there, not archived and not superseded. */
  predicate InForceFact(b: Brain, r: FactId) {
    r < |b.facts| && !b.facts[r].expired && b.facts[r].supersededBy.None?
  }

  lemma AuthorizedExactly(s: Store, who: Principal, r: FactId)
    requires EventsMatch(s.ledger) && RefsOwned(s.ledger)
    ensures r in VisibleRefs(s.ledger, who) <==> Entitled(s.ledger, r, who)
  {
    var l := s.ledger;
    if r in VisibleRefs(l, who) {
      var k :| k in l.events && EventVisible(l, k, who) && l.events[k].backendRef.value == r;
      assert l.events[k].backendRef == Some(r) && SharedWith(k, l.events[k], who);
    }
    if Entitled(l, r, who) {
      var k :| k in l.events && l.events[k].backendRef == Some(r) && l.events[k].tenant == who.tenant && l.events[k].user == who.user
        && SharedWith(k, l.events[k], who);
      assert EventVisible(l, k, who);
    }
  }

  /** In every state a run reaches, whatever crashed, a principal is delivered exactly the memories of its own tenant
      and user that are active, no instructions and shared with it by scope, as far as GBrain holds them in force. */
  lemma DeliveredExactly(attempts: seq<Attempt>, who: Principal, r: FactId)
    ensures var s := Run(EMPTY, attempts); r in Delivered(s, who) <==> Entitled(s.ledger, r, who) && InForceFact(s.brain, r)
  {
    hide Run, VisibleRefs, Entitled, KeysMatch, RefsOwned, RowsTraced, RecordsTraced, RecordsComplete;
    hide TombstonesMatch, CrystalsFresh, LogsAlternate, EffectsMatch, EventsMatch, OriginsMatch, RevisionsBounded;
    EveryRunIsTraced(attempts);
    AuthorizedExactly(Run(EMPTY, attempts), who, r);
  }

  /** Isolation: what a principal is delivered was stored in GBrain under its own tenant, from an event of its own
      tenant and user. */
  lemma NothingOfOthersIsDelivered(attempts: seq<Attempt>, who: Principal, r: FactId)
    requires r in Delivered(Run(EMPTY, attempts), who)
    ensures var s := Run(EMPTY, attempts);
      && r < |s.brain.facts| && s.brain.facts[r].source == who.tenant
      && r in s.ledger.rows && s.ledger.rows[r].origin in s.ledger.events
      && var e := s.ledger.events[s.ledger.rows[r].origin]; e.tenant == who.tenant && e.user == who.user
  {
    hide Run, VisibleRefs, Delivered, RefsOwned, RowsTraced, RecordsTraced, RecordsComplete, LedBySharedEvent;
    hide TombstonesMatch, CrystalsFresh, LogsAlternate, EffectsMatch, EventsMatch, RevisionsBounded, BindingsMatch, KeyPlaced;
    DeliveredExactly(attempts, who, r);
    EveryRunIsTraced(attempts);
  }

  /** An owner's own memory, seen from its row: in scope by the row's scope and the event it came from. */
  ghost predicate OwnInScope(l: Ledger, r: FactId, who: Principal) {
    && r in l.rows && l.rows[r].origin in l.events
    && l.rows[r].binding.tenant == who.tenant && l.rows[r].binding.user == who.user
    && var row, agent := l.rows[r], l.events[l.rows[r].origin].agent;
    match row.binding.scope
    case UserScope => true
    case WorkspaceScope => row.binding.workspace == who.workspace
    case DeviceScope => row.origin.device == who.device
    case AgentScope => agent == who.agent
    case PrivateScope => row.origin.device == who.device && agent == who.agent
  }

  /** The converse: where the stores agree, every active memory of the owner that is in scope and no instruction is
      delivered, so nothing the owner is entitled to is withheld. */
  lemma EverythingOwnIsDelivered(attempts: seq<Attempt>, who: Principal, r: FactId)
    requires Consistent(Run(EMPTY, attempts), {}, {})
    requires var l := Run(EMPTY, attempts).ledger; OwnInScope(l, r, who) && l.rows[r].status == Active && !l.rows[r].instruction
    ensures r in Delivered(Run(EMPTY, attempts), who)
  {
    hide Run, Delivered, RefsOwned, RecordsTraced, RecordsComplete, KeysMatch, KeysSpent;
    hide TombstonesMatch, CrystalsFresh, LogsAlternate, EffectsMatch, EventsMatch, RevisionsBounded;
    EveryRunIsTraced(attempts);
    DeliveredExactly(attempts, who, r);
    var l := Run(EMPTY, attempts).ledger;
    var k := l.rows[r].origin;
    assert l.events[k].backendRef == Some(r) && SharedWith(k, l.events[k], who);
  }
}
