/** The two-party rotation of a refresh secret over a channel that may lose either message, against every
    interleaving with the rest of the service. */
module RefreshRotation {
  import opened Names
  import opened Identity
  import opened AccessRevocation

  /** The service together with the secret its client has stored. */
  datatype Link = Link(registry: Registry, stored: Secret)

  datatype Event =
    | Ask(agent: string, fate: Fate, keyVersion: nat, now: real)
    | Elsewhere(action: Action)

  /** Everyone but the client leaves the client's credential to it. */
  predicate Foreign(e: Event, id: string) {
    e.Elsewhere? && e.action.Refreshing? ==> e.action.id != id
  }

  function Answer(l: Link, id: string, e: Event): Reply
    requires e.Ask?
  {
    Refresh(l.registry, id, l.stored, e.agent, e.keyVersion, e.now).reply
  }

  function Next(l: Link, id: string, e: Event): Link {
    match e
    case Elsewhere(action) => Link(Do(l.registry, action), l.stored)
    case Ask(agent, fate, keyVersion, now) =>
      if fate == RequestLost then l
      else
        var step := Refresh(l.registry, id, l.stored, agent, keyVersion, now);
        Link(step.registry, if fate == Delivered && step.reply.Refreshed? then step.reply.secret else l.stored)
  }

  function After(l: Link, id: string, events: seq<Event>): Link
    decreases |events|
  {
    if events == [] then l else After(Next(l, id, events[0]), id, events[1..])
  }

  /** The client holds the service's current secret or the one before it, and the replacement kept for replays is
      always the current one. */
  predicate InStep(l: Link, id: string) {
    && id in l.registry.credentials
    && var c := l.registry.credentials[id];
    && c.device in l.registry.devices && c.current < l.registry.generated
    && (c.current == l.stored || c.previous == Some(l.stored))
    && (c.previous.Some? <==> c.replacement.Some?) && (c.previous.Some? <==> c.replayUntil.Some?)
    && (c.previous.Some? ==> c.previous.value < c.current && c.replacement.value.secret == c.current)
  }

  lemma PairingStartsInStep(r: Registry, code: string, device: string, agents: set<string>, credential: string, now: real)
    requires Pair(r, code, device, agents, credential, now).reply.Paired?
    ensures var step := Pair(r, code, device, agents, credential, now); InStep(Link(step.registry, step.reply.secret), credential)
  {
  }

  lemma OthersKeepCredential(r: Registry, a: Action, id: string)
    requires id in r.credentials && r.credentials[id].device in r.devices && (a.Refreshing? ==> a.id != id)
    ensures var r' := Do(r, a);
      && id in r'.credentials && r'.credentials[id].device in r'.devices && r.generated <= r'.generated
      && r'.credentials[id] == r.credentials[id].(revoked := r'.credentials[id].revoked)
  {
    hide LiveCredentials, BumpAgents, RevokeAgentsOf;
  }

  lemma EventKeepsInStep(l: Link, id: string, e: Event)
    requires InStep(l, id) && Foreign(e, id)
    ensures InStep(Next(l, id, e), id)
  {
    if e.Elsewhere? {
      OthersKeepCredential(l.registry, e.action, id);
      hide Do;
    } else {
      hide BumpAgents;
    }
  }

  /** In every reachable state of a lossy run the client is at most one rotation behind. */
  lemma {:induction false} RunKeepsInStep(l: Link, id: string, events: seq<Event>)
    requires InStep(l, id) && forall i | 0 <= i < |events| :: Foreign(events[i], id)
    ensures InStep(After(l, id, events), id)
    decreases |events|
  {
    if events != [] {
      hide InStep, Next;
      EventKeepsInStep(l, id, events[0]);
      RunKeepsInStep(Next(l, id, events[0]), id, events[1..]);
    }
  }

  // ---- what an ask is answered

  /** The device, the agent and the credential are all in force. */
  predicate InForce(r: Registry, id: string, agent: string, now: real) {
    && id in r.credentials && var c := r.credentials[id];
    && c.device in r.devices && !c.revoked && now < c.expiresAt
    && r.devices[c.device].active && c.epoch == r.devices[c.device].epoch
    && agent in r.agents && r.agents[agent].device == c.device && r.agents[agent].active
  }

  predicate UpToDate(l: Link, id: string)
    requires id in l.registry.credentials
  {
    l.registry.credentials[id].current == l.stored
  }

  /** An ask is answered exactly when everything is in force and either the client is up to date and the credential
      outlives the replay window (the table forbids a window past the expiry), or it is one behind, still inside
      the window, and the sealing key has not changed. */
  lemma AnsweredExactly(l: Link, id: string, e: Event)
    requires InStep(l, id) && e.Ask?
    ensures var c := l.registry.credentials[id];
      Answer(l, id, e).Refreshed? <==>
        && InForce(l.registry, id, e.agent, e.now)
        && if UpToDate(l, id) then e.now + REPLAY_SECONDS <= c.expiresAt
           else e.now < c.replayUntil.value && e.keyVersion == c.replacement.value.keyVersion
  {
  }

  /** Rotated or replayed, an answer always carries what is afterwards the service's current secret. */
  lemma AnswerCarriesCurrent(l: Link, id: string, e: Event)
    requires InStep(l, id) && e.Ask? && e.fate != RequestLost && Answer(l, id, e).Refreshed?
    ensures Answer(l, id, e).secret == Next(l, id, e).registry.credentials[id].current
    ensures e.fate == Delivered ==> UpToDate(Next(l, id, e), id)
    ensures Answer(l, id, e).replayed <==> !UpToDate(l, id)
    ensures Accepted(Next(l, id, e).registry, Answer(l, id, e).token)
  {
  }

  /** Reuse is suspected of an honest client exactly when it comes back one rotation behind after the window. */
  lemma SuspectedExactly(l: Link, id: string, e: Event)
    requires InStep(l, id) && e.Ask?
    ensures var r, c := l.registry, l.registry.credentials[id];
      Answer(l, id, e) == Failed(ReuseDetected) <==>
        && !c.revoked && e.now < c.expiresAt && r.devices[c.device].active && c.epoch == r.devices[c.device].epoch
        && !UpToDate(l, id) && e.now >= c.replayUntil.value
  {
  }

  // ---- lost replies

  /** An ask whose answer never reached the client's store. */
  predicate Wasted(e: Event) {
    e.Ask? && (e.fate == RequestLost || e.fate == ReplyLost || e.fate == WriteFailed)
  }

  /** A rotation whose answer is wasted puts the client one behind, with the window ahead. */
  lemma WastedRotationOpensWindow(l: Link, id: string, e: Event)
    requires InStep(l, id) && UpToDate(l, id) && Wasted(e) && e.fate != RequestLost && Answer(l, id, e).Refreshed?
    ensures Behind(Next(l, id, e), id, l.stored, Sealed(Answer(l, id, e).secret, e.keyVersion), e.now + REPLAY_SECONDS)
  {
  }

  /** The client still holds the secret it spent; the one that replaced it can be replayed until the window ends. */
  predicate Behind(l: Link, id: string, spent: Secret, replacement: Sealed, until: real) {
    && InStep(l, id) && l.stored == spent && !UpToDate(l, id)
    && var c := l.registry.credentials[id];
    && c.current == replacement.secret && c.previous == Some(spent) && c.replacement == Some(replacement) && c.replayUntil == Some(until)
  }

  /** What may happen while the client waits: any step of other parties, and wasted retries of its own as long as none
      reaches the service after the window. */
  predicate Awaits(e: Event, id: string, until: real) {
    Foreign(e, id) && (e.Ask? ==> Wasted(e) && (e.fate == RequestLost || e.now < until))
  }

  lemma StaysBehind(l: Link, id: string, spent: Secret, replacement: Sealed, until: real, e: Event)
    requires Behind(l, id, spent, replacement, until) && Awaits(e, id, until)
    ensures Behind(Next(l, id, e), id, spent, replacement, until)
  {
    EventKeepsInStep(l, id, e);
    if e.Elsewhere? {
      OthersKeepCredential(l.registry, e.action, id);
      hide Do;
    } else {
      LostRetryIsIdle(l, id, spent, replacement, until, e);
    }
  }

  lemma LostRetryIsIdle(l: Link, id: string, spent: Secret, replacement: Sealed, until: real, e: Event)
    requires Behind(l, id, spent, replacement, until) && Awaits(e, id, until) && e.Ask?
    ensures Next(l, id, e) == l
  {
  }

  lemma {:induction false} WaitingStaysBehind(l: Link, id: string, spent: Secret, replacement: Sealed, until: real, events: seq<Event>)
    requires Behind(l, id, spent, replacement, until) && forall i | 0 <= i < |events| :: Awaits(events[i], id, until)
    ensures Behind(After(l, id, events), id, spent, replacement, until)
    decreases |events|
  {
    hide Behind, Next, Awaits;
    if events != [] {
      StaysBehind(l, id, spent, replacement, until, events[0]);
      WaitingStaysBehind(Next(l, id, events[0]), id, spent, replacement, until, events[1..]);
    }
  }

  /** A rotation whose answer was lost; then, in any order, steps of other parties and further lost retries inside the
      window; then a retry that gets through. It is answered exactly when it comes inside the window under the same
      sealing key with everything still in force; the answer is then the secret of that rotation, and inside the
      window the client is never taken for a thief. */
  lemma LostAnswersAreRecovered(l: Link, id: string, rotation: Event, between: seq<Event>, last: Event)
    requires InStep(l, id) && UpToDate(l, id) && Wasted(rotation) && rotation.fate != RequestLost && Answer(l, id, rotation).Refreshed?
    requires forall i | 0 <= i < |between| :: Awaits(between[i], id, rotation.now + REPLAY_SECONDS)
    requires last.Ask? && last.fate == Delivered
    ensures var waiting, secret := After(Next(l, id, rotation), id, between), Answer(l, id, rotation).secret;
      && (Answer(waiting, id, last).Refreshed? <==>
            last.now < rotation.now + REPLAY_SECONDS && last.keyVersion == rotation.keyVersion
            && InForce(waiting.registry, id, last.agent, last.now))
      && (Answer(waiting, id, last).Refreshed? ==>
            && Answer(waiting, id, last).replayed && Answer(waiting, id, last).secret == secret
            && Next(waiting, id, last).stored == secret && UpToDate(Next(waiting, id, last), id))
      && (last.now < rotation.now + REPLAY_SECONDS ==> Answer(waiting, id, last) != Failed(ReuseDetected))
  {
    hide InStep, Next, Answer, Awaits, InForce;
    var replacement, until := Sealed(Answer(l, id, rotation).secret, rotation.keyVersion), rotation.now + REPLAY_SECONDS;
    WastedRotationOpensWindow(l, id, rotation);
    WaitingStaysBehind(Next(l, id, rotation), id, l.stored, replacement, until, between);
    var waiting := After(Next(l, id, rotation), id, between);
    AnsweredExactly(waiting, id, last);
    SuspectedExactly(waiting, id, last);
    if Answer(waiting, id, last).Refreshed? {
      AnswerCarriesCurrent(waiting, id, last);
      DeliveredIsStored(waiting, id, last);
      ReplayChangesNothing(waiting, id, last);
    }
  }

  lemma DeliveredIsStored(l: Link, id: string, e: Event)
    requires e.Ask? && e.fate == Delivered && Answer(l, id, e).Refreshed?
    ensures Next(l, id, e).stored == Answer(l, id, e).secret
  {
  }

  lemma ReplayChangesNothing(l: Link, id: string, e: Event)
    requires e.Ask? && e.fate == Delivered && Answer(l, id, e).Refreshed? && Answer(l, id, e).replayed
    ensures Next(l, id, e).registry == l.registry
  {
  }

  /** Come back after the window, and the client is locked out for good: its credential is revoked and every
      later ask is refused, whatever else happens. */
  lemma LateRetryLocksOut(l: Link, id: string, late: Event, events: seq<Event>, ask: Event)
    requires InStep(l, id) && late.Ask? && late.fate != RequestLost && Answer(l, id, late) == Failed(ReuseDetected)
    requires (forall i | 0 <= i < |events| :: Foreign(events[i], id)) && ask.Ask?
    ensures Answer(After(Next(l, id, late), id, events), id, ask) == Failed(RefreshInvalid)
  {
    EventKeepsInStep(l, id, late);
    RevokedStaysRevoked(Next(l, id, late), id, events);
  }

  lemma {:induction false} RevokedStaysRevoked(l: Link, id: string, events: seq<Event>)
    requires InStep(l, id) && l.registry.credentials[id].revoked && forall i | 0 <= i < |events| :: Foreign(events[i], id)
    ensures id in After(l, id, events).registry.credentials && After(l, id, events).registry.credentials[id].revoked
    decreases |events|
  {
    if events != [] {
      EventKeepsInStep(l, id, events[0]);
      EventKeepsRevoked(l, id, events[0]);
      hide InStep, Next;
      RevokedStaysRevoked(Next(l, id, events[0]), id, events[1..]);
    }
  }

  lemma EventKeepsRevoked(l: Link, id: string, e: Event)
    requires InStep(l, id) && l.registry.credentials[id].revoked && Foreign(e, id)
    ensures id in Next(l, id, e).registry.credentials && Next(l, id, e).registry.credentials[id].revoked
  {
    hide LiveCredentials, BumpAgents, RevokeAgentsOf;
  }

  /** The last thirty seconds of a credential are lost to an up-to-date client although it has not expired. */
  lemma LastSecondsAreLost(l: Link, id: string, agent: string, keyVersion: nat, now: real)
    requires InStep(l, id) && UpToDate(l, id) && InForce(l.registry, id, agent, now)
    ensures Answer(l, id, Ask(agent, Delivered, keyVersion, now)) == Failed(ConstraintViolated)
       <==> l.registry.credentials[id].expiresAt - REPLAY_SECONDS < now
  {
  }
}
