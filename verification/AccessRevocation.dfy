/** How long an access token is accepted: exactly until its device is revoked, its agent is revoked, or a spent
    refresh secret of its device is used again. */
module AccessRevocation {
  import opened Identity

  datatype Action =
    | Pairing(code: string, device: string, agents: set<string>, credential: string, now: real)
    | Refreshing(id: string, presented: Secret, agent: string, keyVersion: nat, now: real)
    | RevokingDevice(device: string)
    | RevokingAgent(agent: string)
    | Registering(device: string, id: string, secret: Secret, now: real)
    | IssuingCode(code: string, pairing: PairingCode)

  function Do(r: Registry, a: Action): Registry {
    match a
    case Pairing(code, device, agents, credential, now) => Pair(r, code, device, agents, credential, now).registry
    case Refreshing(id, presented, agent, keyVersion, now) => Refresh(r, id, presented, agent, keyVersion, now).registry
    case RevokingDevice(device) => RevokeDevice(r, device).registry
    case RevokingAgent(agent) => RevokeAgent(r, agent).registry
    case Registering(device, id, secret, now) => RegisterBootstrap(r, device, id, secret, now).registry
    case IssuingCode(code, pairing) =>
      if code in r.codes || pairing.usedBy.Some? then r else r.(codes := r.codes[code := pairing])
  }

  function Run(r: Registry, actions: seq<Action>): Registry
    decreases |actions|
  {
    if actions == [] then r else Run(Do(r, actions[0]), actions[1..])
  }

  /** The action ends the token: it revokes its device or its agent, or is caught reusing a secret of its device. */
  predicate Cuts(r: Registry, a: Action, t: Token) {
    match a
    case RevokingDevice(device) => device == t.device
    case RevokingAgent(agent) => agent == t.agent
    case Refreshing(id, presented, agent, keyVersion, now) =>
      Refresh(r, id, presented, agent, keyVersion, now).reply == Failed(ReuseDetected) && r.credentials[id].device == t.device
    case _ => false
  }

  predicate EverCut(r: Registry, actions: seq<Action>, t: Token)
    decreases |actions|
  {
    actions != [] && (Cuts(r, actions[0], t) || EverCut(Do(r, actions[0]), actions[1..], t))
  }

  /** The token can never be accepted again: what it names is revoked or has moved past its epochs. */
  predicate Dead(r: Registry, t: Token) {
    && t.device in r.devices && t.agent in r.agents
    && (!r.devices[t.device].active || r.devices[t.device].epoch > t.deviceEpoch
        || !r.agents[t.agent].active || r.agents[t.agent].epoch > t.agentEpoch)
  }

  /** Identities never change hands, epochs only grow, and revocation is final. */
  ghost predicate Grows(r: Registry, r': Registry) {
    && (forall d <- r.devices ::
          && d in r'.devices && r'.devices[d].tenant == r.devices[d].tenant && r'.devices[d].user == r.devices[d].user
          && r'.devices[d].epoch >= r.devices[d].epoch && (r'.devices[d].active ==> r.devices[d].active))
    && (forall a <- r.agents ::
          && a in r'.agents && r'.agents[a].device == r.agents[a].device
          && r'.agents[a].epoch >= r.agents[a].epoch && (r'.agents[a].active ==> r.agents[a].active))
  }

  lemma ActionGrows(r: Registry, a: Action)
    ensures Grows(r, Do(r, a))
  {
    hide Grows, Pair, Refresh, RevokeDevice, RevokeAgent, RegisterBootstrap;
    match a
    case Pairing(code, device, agents, credential, now) => PairGrows(r, code, device, agents, credential, now);
    case Refreshing(id, presented, agent, keyVersion, now) => RefreshGrows(r, id, presented, agent, keyVersion, now);
    case _ => OtherActionGrows(r, a);
  }

  lemma PairGrows(r: Registry, code: string, device: string, agents: set<string>, credential: string, now: real)
    ensures Grows(r, Pair(r, code, device, agents, credential, now).registry)
  {
  }

  lemma RefreshGrows(r: Registry, id: string, presented: Secret, agent: string, keyVersion: nat, now: real)
    ensures Grows(r, Refresh(r, id, presented, agent, keyVersion, now).registry)
  {
  }

  lemma OtherActionGrows(r: Registry, a: Action)
    requires !a.Pairing? && !a.Refreshing?
    ensures Grows(r, Do(r, a))
  {
    hide Grows, RevokeDevice, RevokeAgent, RegisterBootstrap;
    RevocationGrows(r, if a.RevokingDevice? then a.device else "", if a.RevokingAgent? then a.agent else "");
    match a
    case Registering(device, id, secret, now) => RegistrationGrows(r, device, id, secret, now);
    case IssuingCode(code, pairing) => CodesGrow(r, code, pairing);
    case _ =>
  }

  lemma RevocationGrows(r: Registry, device: string, agent: string)
    ensures Grows(r, RevokeDevice(r, device).registry) && Grows(r, RevokeAgent(r, agent).registry)
  {
    hide RevokeCredentialsOf;
  }

  lemma RegistrationGrows(r: Registry, device: string, id: string, secret: Secret, now: real)
    ensures Grows(r, RegisterBootstrap(r, device, id, secret, now).registry)
  {
    hide LiveCredentials;
  }

  lemma CodesGrow(r: Registry, code: string, pairing: PairingCode)
    ensures Grows(r, r) && Grows(r, r.(codes := r.codes[code := pairing]))
  {
  }

  lemma {:induction false} RunGrows(r: Registry, actions: seq<Action>)
    ensures Grows(r, Run(r, actions))
    decreases |actions|
  {
    if actions != [] {
      ActionGrows(r, actions[0]);
      RunGrows(Do(r, actions[0]), actions[1..]);
    }
  }

  lemma DeadStaysDead(r: Registry, actions: seq<Action>, t: Token)
    requires Dead(r, t)
    ensures Dead(Run(r, actions), t) && !Accepted(Run(r, actions), t)
  {
    RunGrows(r, actions);
  }

  lemma ActionCuts(r: Registry, a: Action, t: Token)
    requires Accepted(r, t)
    ensures if Cuts(r, a, t) then Dead(Do(r, a), t) else Accepted(Do(r, a), t)
  {
    hide LiveCredentials, RevokeCredentialsOf;
  }

  /** A token once accepted is accepted after a run if and only if nothing in the run ended it. */
  lemma {:induction false} AcceptedExactlyUntilCut(r: Registry, actions: seq<Action>, t: Token)
    requires Accepted(r, t)
    ensures Accepted(Run(r, actions), t) <==> !EverCut(r, actions, t)
    decreases |actions|
  {
    if actions != [] {
      ActionCuts(r, actions[0], t);
      if Cuts(r, actions[0], t) {
        DeadStaysDead(Do(r, actions[0]), actions[1..], t);
      } else {
        AcceptedExactlyUntilCut(Do(r, actions[0]), actions[1..], t);
      }
    }
  }

  /** Every token refresh hands out is accepted at once, so the statement above covers all tokens ever issued. */
  lemma IssuedIsAccepted(r: Registry, id: string, presented: Secret, agent: string, keyVersion: nat, now: real)
    requires Refresh(r, id, presented, agent, keyVersion, now).reply.Refreshed?
    ensures var step := Refresh(r, id, presented, agent, keyVersion, now);
      Accepted(step.registry, step.reply.token) && step.reply.token.agent == agent
  {
  }

  /** A revoked device: whatever follows, no token naming it is accepted and no refresh on it answers. */
  lemma RevokedDeviceIsShutOut(r: Registry, actions: seq<Action>, device: string, t: Token, id: string, presented: Secret,
                               keyVersion: nat, now: real)
    requires device in r.devices && !r.devices[device].active && t.device == device
    requires var r' := Run(r, actions); id in r'.credentials && r'.credentials[id].device == device
    ensures !Accepted(Run(r, actions), t)
    ensures Refresh(Run(r, actions), id, presented, t.agent, keyVersion, now).reply.Failed?
  {
    RunGrows(r, actions);
  }

  /** Reuse of a spent secret ends every token of the device issued before it, for every agent, for good. */
  lemma ReuseEndsEarlierTokens(before: Registry, between: seq<Action>, after: seq<Action>, t: Token,
                               id: string, presented: Secret, agent: string, keyVersion: nat, now: real)
    requires Accepted(before, t)
    requires var r := Run(before, between);
      Refresh(r, id, presented, agent, keyVersion, now).reply == Failed(ReuseDetected) && r.credentials[id].device == t.device
    ensures !Accepted(Run(Do(Run(before, between), Refreshing(id, presented, agent, keyVersion, now)), after), t)
  {
    var r := Run(before, between);
    RunGrows(before, between);
    var reused := Do(r, Refreshing(id, presented, agent, keyVersion, now));
    assert reused == AfterReuse(r, id);
    assert Dead(reused, t);
    DeadStaysDead(reused, after, t);
  }

  // ---- pairing codes

  lemma ActionKeepsUsedCode(r: Registry, a: Action, code: string)
    requires code in r.codes && r.codes[code].usedBy.Some?
    ensures code in Do(r, a).codes && Do(r, a).codes[code] == r.codes[code]
  {
    hide LiveCredentials, RevokeCredentialsOf, BumpAgents, RevokeAgentsOf;
  }

  /** A code that paired a device pairs no other one, in any later run. */
  lemma {:induction false} CodePairsOnce(r: Registry, actions: seq<Action>, code: string)
    requires code in r.codes && r.codes[code].usedBy.Some?
    ensures var r' := Run(r, actions);
      && code in r'.codes && r'.codes[code] == r.codes[code]
      && forall device, agents, credential, now :: Pair(r', code, device, agents, credential, now) == Step(r', Failed(CodeUsed))
    decreases |actions|
  {
    hide Pair, Do;
    if actions != [] {
      ActionKeepsUsedCode(r, actions[0], code);
      CodePairsOnce(Do(r, actions[0]), actions[1..], code);
    } else {
      UsedCodeRefuses(r, code);
    }
  }

  lemma UsedCodeRefuses(r: Registry, code: string)
    requires code in r.codes && r.codes[code].usedBy.Some?
    ensures forall device, agents, credential, now :: Pair(r, code, device, agents, credential, now) == Step(r, Failed(CodeUsed))
  {
  }
}
