/** Whose device a token speaks for, and how many refresh credentials of a device can be live, over every run of the
    identity service (src/agent_memory_gateway/identity_service.py). */
module Enrolment {
  import opened Names
  import opened Identity
  import opened AccessRevocation

  const EMPTY_REGISTRY := Registry(map[], map[], map[], map[], 0)

  // ---- pairing

  /** The code can still pair a device. */
  predicate Usable(r: Registry, code: string, now: real) {
    code in r.codes && r.codes[code].usedBy.None? && now < r.codes[code].expiresAt
  }

  /** Pairing succeeds exactly with a usable code and a new device, new agents and a new credential. The device then
      belongs to the tenant and the user the code was issued for, its agents are its own, the credential lives for
      ninety days, and the code is spent on it; everything else stays. */
  lemma PairsExactly(r: Registry, code: string, device: string, agents: set<string>, credential: string, now: real)
    ensures var step := Pair(r, code, device, agents, credential, now); var r' := step.registry;
      && (step.reply.Paired? <==> Usable(r, code, now) && device !in r.devices && agents !! r.agents.Keys && credential !in r.credentials)
      && (step.reply.Failed? <==> !step.reply.Paired?) && (step.reply.Failed? ==> r' == r)
      && (step.reply.Paired? ==>
           && r'.devices == r.devices[device := Device(r.codes[code].tenant, r.codes[code].user, true, 1)]
           && r'.agents.Keys == r.agents.Keys + agents && (forall a <- r.agents :: r'.agents[a] == r.agents[a])
           && (forall a <- agents :: r'.agents[a] == Agent(device, true, 1))
           && step.reply == Paired(credential, r.generated) && r'.generated == r.generated + 1
           && r'.credentials == r.credentials[credential := Credential(device, r.generated, None, None, None, now + 90.0 * 86400.0, false, 1)]
           && r'.codes == r.codes[code := r.codes[code].(usedBy := Some(device))])
  {
  }

  // ---- every device comes from a code

  /** The code the device was paired with names its tenant and user. */
  predicate PairedBy(r: Registry, device: string, code: string)
    requires device in r.devices
  {
    && code in r.codes && r.codes[code].usedBy == Some(device)
    && r.codes[code].tenant == r.devices[device].tenant && r.codes[code].user == r.devices[device].user
  }

  ghost predicate Owned(r: Registry) {
    (forall d <- r.devices :: exists code <- r.codes :: PairedBy(r, d, code)) && PartsHaveDevices(r)
  }

  ghost predicate PartsHaveDevices(r: Registry) {
    && (forall a <- r.agents :: r.agents[a].device in r.devices)
    && (forall c <- r.credentials :: r.credentials[c].device in r.devices)
  }

  lemma ActionKeepsOwned(r: Registry, a: Action)
    requires Owned(r)
    ensures Owned(Do(r, a))
  {
    hide Do, PartsHaveDevices;
    var r' := Do(r, a);
    DevicesStay(r, a);
    PartsStay(r, a);
    forall d <- r'.devices ensures exists code <- r'.codes :: PairedBy(r', d, code) {
      if d in r.devices {
        var code :| code in r.codes && PairedBy(r, d, code);
        ActionKeepsUsedCode(r, a, code);
        assert PairedBy(r', d, code);
      } else {
        NewDeviceIsPaired(r, a, d);
      }
    }
  }

  lemma NewDeviceIsPaired(r: Registry, a: Action, d: string)
    requires d !in r.devices && d in Do(r, a).devices
    ensures a.Pairing? && a.code in Do(r, a).codes && PairedBy(Do(r, a), d, a.code)
  {
    hide LiveCredentials, RevokeCredentialsOf, BumpAgents, RevokeAgentsOf;
  }

  lemma PartsStay(r: Registry, a: Action)
    requires PartsHaveDevices(r)
    ensures PartsHaveDevices(Do(r, a))
  {
    hide LiveCredentials, PartsHaveDevices, Pair, Refresh, RevokeDevice, RevokeAgent, RegisterBootstrap;
    match a
    case Pairing(code, device, agents, credential, now) => PairedParts(r, code, device, agents, credential, now);
    case Refreshing(id, presented, agent, keyVersion, now) => RefreshedParts(r, id, presented, agent, keyVersion, now);
    case RevokingDevice(device) => RevokedParts(r, device, "");
    case RevokingAgent(agent) => RevokedParts(r, "", agent);
    case Registering(device, id, secret, now) => RegisteredParts(r, device, id, secret, now);
    case IssuingCode(code, pairing) => CodesKeepParts(r, r.codes[code := pairing]);
  }

  lemma PairedParts(r: Registry, code: string, device: string, agents: set<string>, credential: string, now: real)
    requires PartsHaveDevices(r)
    ensures PartsHaveDevices(Pair(r, code, device, agents, credential, now).registry)
  {
  }

  lemma RefreshedParts(r: Registry, id: string, presented: Secret, agent: string, keyVersion: nat, now: real)
    requires PartsHaveDevices(r)
    ensures PartsHaveDevices(Refresh(r, id, presented, agent, keyVersion, now).registry)
  {
  }

  lemma RevokedParts(r: Registry, device: string, agent: string)
    requires PartsHaveDevices(r)
    ensures PartsHaveDevices(RevokeDevice(r, device).registry) && PartsHaveDevices(RevokeAgent(r, agent).registry)
  {
  }

  lemma RegisteredParts(r: Registry, device: string, id: string, secret: Secret, now: real)
    requires PartsHaveDevices(r)
    ensures PartsHaveDevices(RegisterBootstrap(r, device, id, secret, now).registry)
  {
    hide LiveCredentials;
  }

  lemma CodesKeepParts(r: Registry, codes: map<string, PairingCode>)
    requires PartsHaveDevices(r)
    ensures PartsHaveDevices(r.(codes := codes))
  {
  }

  lemma DevicesStay(r: Registry, a: Action)
    ensures forall d <- r.devices :: d in Do(r, a).devices && Do(r, a).devices[d].tenant == r.devices[d].tenant && Do(r, a).devices[d].user == r.devices[d].user
  {
    ActionGrows(r, a);
    hide Do;
  }

  lemma {:induction false} RunKeepsOwned(r: Registry, actions: seq<Action>)
    requires Owned(r)
    ensures Owned(Run(r, actions))
    decreases |actions|
  {
    hide Owned, Do;
    if actions != [] {
      ActionKeepsOwned(r, actions[0]);
      RunKeepsOwned(Do(r, actions[0]), actions[1..]);
    }
  }

  /** Over every run, a token that refresh hands out names the tenant and the user of the code that paired its device,
      and an agent of that device. */
  lemma TokensSpeakForTheCode(actions: seq<Action>, id: string, presented: Secret, agent: string, keyVersion: nat, now: real)
    requires Refresh(Run(EMPTY_REGISTRY, actions), id, presented, agent, keyVersion, now).reply.Refreshed?
    ensures var r := Run(EMPTY_REGISTRY, actions); var t := Refresh(r, id, presented, agent, keyVersion, now).reply.token;
      && t.agent == agent && agent in r.agents && r.agents[agent].device == t.device
      && id in r.credentials && r.credentials[id].device == t.device
      && exists code <- r.codes :: r.codes[code].usedBy == Some(t.device) && r.codes[code].tenant == t.tenant && r.codes[code].user == t.user
  {
    hide Run;
    RunKeepsOwned(EMPTY_REGISTRY, actions);
    var r := Run(EMPTY_REGISTRY, actions);
    var d := Refresh(r, id, presented, agent, keyVersion, now).reply.token.device;
    var code :| code in r.codes && PairedBy(r, d, code);
  }

  // ---- one live credential a device

  predicate Live(c: Credential, now: real) {
    !c.revoked && now < c.expiresAt
  }

  /** No device has two credentials that are live at this time. */
  predicate OneLive(r: Registry, now: real) {
    forall c <- r.credentials, d <- r.credentials |
      c != d && r.credentials[c].device == r.credentials[d].device && Live(r.credentials[c], now) :: !Live(r.credentials[d], now)
  }

  /** The time an action carries; the others do not look at the clock. */
  function Clock(a: Action, now: real): real {
    match a
    case Pairing(_, _, _, _, at) => at
    case Refreshing(_, _, _, _, at) => at
    case Registering(_, _, _, at) => at
    case _ => now
  }

  lemma ActionKeepsOneLive(r: Registry, a: Action, now: real)
    requires Owned(r) && OneLive(r, now) && now <= Clock(a, now)
    ensures OneLive(Do(r, a), Clock(a, now))
  {
    hide Owned, OneLive, Pair, Refresh, RevokeDevice, RevokeAgent, RegisterBootstrap;
    CredentialsHaveDevices(r);
    LaterOneLive(r, now, Clock(a, now));
    match a
    case Pairing(code, device, agents, credential, at) => PairingKeepsOneLive(r, code, device, agents, credential, at);
    case Refreshing(id, presented, agent, keyVersion, at) => RefreshKeepsOneLive(r, id, presented, agent, keyVersion, at);
    case RevokingDevice(device) => RevocationKeepsOneLive(r, device, "", now);
    case RevokingAgent(agent) => RevocationKeepsOneLive(r, "", agent, now);
    case Registering(device, id, secret, at) => RegisteringKeepsOneLive(r, device, id, secret, at, now);
    case IssuingCode(code, pairing) => SameCredentials(r, Do(r, a), now);
  }

  lemma LaterOneLive(r: Registry, now: real, later: real)
    requires OneLive(r, now) && now <= later
    ensures OneLive(r, later)
  {
  }

  lemma SameCredentials(r: Registry, r': Registry, now: real)
    requires OneLive(r, now) && r'.credentials == r.credentials
    ensures OneLive(r', now)
  {
  }

  lemma PairingKeepsOneLive(r: Registry, code: string, device: string, agents: set<string>, credential: string, at: real)
    requires OneLive(r, at) && forall c <- r.credentials :: r.credentials[c].device in r.devices
    ensures OneLive(Pair(r, code, device, agents, credential, at).registry, at)
  {
  }

  lemma RefreshKeepsOneLive(r: Registry, id: string, presented: Secret, agent: string, keyVersion: nat, at: real)
    requires OneLive(r, at)
    ensures OneLive(Refresh(r, id, presented, agent, keyVersion, at).registry, at)
  {
    hide BumpAgents;
  }

  lemma RevocationKeepsOneLive(r: Registry, device: string, agent: string, now: real)
    requires OneLive(r, now)
    ensures OneLive(RevokeDevice(r, device).registry, now) && OneLive(RevokeAgent(r, agent).registry, now)
  {
    hide RevokeAgentsOf;
  }

  lemma CredentialsHaveDevices(r: Registry)
    requires Owned(r)
    ensures forall c <- r.credentials :: r.credentials[c].device in r.devices
  {
  }

  lemma RegisteringKeepsOneLive(r: Registry, device: string, id: string, secret: Secret, at: real, now: real)
    requires OneLive(r, now) && now <= at
    ensures OneLive(RegisterBootstrap(r, device, id, secret, at).registry, at)
  {
    LiveOnes(r, device, at);
    hide LiveCredentials;
  }

  lemma LiveOnes(r: Registry, device: string, at: real)
    ensures forall c :: c in LiveCredentials(r, device, at) <==> c in r.credentials && r.credentials[c].device == device && Live(r.credentials[c], at)
  {
  }

  /** The clock never goes back. */
  predicate InTime(actions: seq<Action>, now: real)
    decreases |actions|
  {
    actions == [] || (now <= Clock(actions[0], now) && InTime(actions[1..], Clock(actions[0], now)))
  }

  function Ends(actions: seq<Action>, now: real): real
    decreases |actions|
  {
    if actions == [] then now else Ends(actions[1..], Clock(actions[0], now))
  }

  lemma {:induction false} RunKeepsOneLive(r: Registry, actions: seq<Action>, now: real)
    requires Owned(r) && OneLive(r, now) && InTime(actions, now)
    ensures OneLive(Run(r, actions), Ends(actions, now))
    decreases |actions|
  {
    hide Owned, OneLive, Do;
    if actions != [] {
      ActionKeepsOwned(r, actions[0]);
      ActionKeepsOneLive(r, actions[0], now);
      RunKeepsOneLive(Do(r, actions[0]), actions[1..], Clock(actions[0], now));
    }
  }

  /** Over every run in which the clock does not go back, no device ever has two live refresh credentials: pairing,
      rotation and the registration of a secret made on the device never add a second one. */
  lemma NeverTwoLive(actions: seq<Action>, now: real)
    requires InTime(actions, now)
    ensures OneLive(Run(EMPTY_REGISTRY, actions), Ends(actions, now))
  {
    RunKeepsOneLive(EMPTY_REGISTRY, actions, now);
  }

  // ---- revocation

  /** Revoking an active device makes it, its agents and its credentials useless at one stroke and touches no other. */
  lemma RevocationReaches(r: Registry, device: string)
    requires device in r.devices && r.devices[device].active
    ensures var r' := RevokeDevice(r, device).registry;
      && (forall d <- r.devices :: d in r'.devices && (r'.devices[d].active <==> r.devices[d].active && d != device))
      && r'.devices[device].epoch > r.devices[device].epoch
      && (forall a <- r.agents :: a in r'.agents && (r'.agents[a].active <==> r.agents[a].active && r.agents[a].device != device))
      && (forall c <- r.credentials :: c in r'.credentials
            && r'.credentials[c] == r.credentials[c].(revoked := r.credentials[c].revoked || r.credentials[c].device == device))
  {
  }

  // ---- refreshing

  /** The credential is live, its device active and at the epoch the credential was issued for, and the agent an active
      one of that device. */
  predicate Serviceable(r: Registry, id: string, agent: string, now: real) {
    && id in r.credentials && Live(r.credentials[id], now)
    && var c := r.credentials[id];
    && c.device in r.devices && r.devices[c.device].active && r.devices[c.device].epoch == c.epoch
    && agent in r.agents && r.agents[agent].active && r.agents[agent].device == c.device
  }

  /** The secret is the spent one, its replacement can still be replayed under this key. */
  predicate Replayable(c: Credential, presented: Secret, keyVersion: nat, now: real) {
    && c.previous == Some(presented) && c.replayUntil.Some? && now < c.replayUntil.value
    && c.replacement.Some? && c.replacement.value.keyVersion == keyVersion
  }

  /** The secret is the current one and the credential outlives the thirty seconds in which it can be replayed. */
  predicate Rotatable(c: Credential, presented: Secret, now: real) {
    c.previous != Some(presented) && c.current == presented && now + 30.0 <= c.expiresAt
  }

  /** Whatever secret is presented, refresh answers exactly when everything is in force and the secret is the current one
      or a spent one that can be replayed. A replay changes nothing; a rotation makes the next secret the current one
      and keeps it for thirty seconds; the token is the device's and the agent's at their epochs. */
  lemma RefreshesExactly(r: Registry, id: string, presented: Secret, agent: string, keyVersion: nat, now: real)
    ensures var step := Refresh(r, id, presented, agent, keyVersion, now);
      && (step.reply.Refreshed? <==>
           && Serviceable(r, id, agent, now)
           && (Replayable(r.credentials[id], presented, keyVersion, now) || Rotatable(r.credentials[id], presented, now)))
      && (step.reply.Refreshed? ==>
           var c := r.credentials[id];
           && step.reply.token == Token(r.devices[c.device].tenant, r.devices[c.device].user, c.device, agent, c.epoch, r.agents[agent].epoch)
           && if c.previous == Some(presented) then step == Step(r, Refreshed(step.reply.token, c.replacement.value.secret, true))
              else
                && step.reply == Refreshed(step.reply.token, r.generated, false)
                && step.registry == r.(generated := r.generated + 1,
                     credentials := r.credentials[id := Credential(c.device, r.generated, Some(presented), Some(now + 30.0),
                                                                   Some(Sealed(r.generated, keyVersion)), c.expiresAt, false, c.epoch)]))
  {
  }

  /** A secret that is neither the current one nor the one before it is turned away and changes nothing; and no refused
      refresh changes anything, except that a spent secret after its window revokes the credential and moves the epochs
      of its device and agents on. */
  lemma OtherSecretsAreRefused(r: Registry, id: string, presented: Secret, agent: string, keyVersion: nat, now: real)
    requires Refresh(r, id, presented, agent, keyVersion, now).reply.Failed?
    ensures var step := Refresh(r, id, presented, agent, keyVersion, now);
      && (step.reply.error == ReuseDetected <==>
           && id in r.credentials && Live(r.credentials[id], now)
           && var c := r.credentials[id];
           && c.device in r.devices && r.devices[c.device].active && r.devices[c.device].epoch == c.epoch
           && c.previous == Some(presented) && (c.replayUntil.None? || c.replayUntil.value <= now))
      && (step.reply.error != ReuseDetected ==> step.registry == r)
      && (step.reply.error == ReuseDetected ==>
           && step.registry.credentials == r.credentials[id := r.credentials[id].(revoked := true)]
           && var d := r.credentials[id].device;
           && step.registry.devices == r.devices[d := r.devices[d].(epoch := r.devices[d].epoch + 1)]
           && step.registry.agents.Keys == r.agents.Keys
           && forall a <- r.agents ::
                step.registry.agents[a] == if r.agents[a].device == d then r.agents[a].(epoch := r.agents[a].epoch + 1) else r.agents[a])
  {
  }

  /** Over every run, a token that is accepted, wherever it came from, names the tenant and the user of the code that paired
      its device, an active agent of that device, and the epochs both are at. */
  lemma AcceptedSpeaksForTheCode(actions: seq<Action>, t: Token)
    requires Accepted(Run(EMPTY_REGISTRY, actions), t)
    ensures var r := Run(EMPTY_REGISTRY, actions);
      && t.device in r.devices && r.devices[t.device].active && r.devices[t.device].epoch == t.deviceEpoch
      && t.agent in r.agents && r.agents[t.agent].active && r.agents[t.agent].device == t.device && r.agents[t.agent].epoch == t.agentEpoch
      && exists code <- r.codes :: r.codes[code].usedBy == Some(t.device) && r.codes[code].tenant == t.tenant && r.codes[code].user == t.user
  {
    hide Run;
    RunKeepsOwned(EMPTY_REGISTRY, actions);
    var r := Run(EMPTY_REGISTRY, actions);
    var code :| code in r.codes && PairedBy(r, t.device, code);
  }
}
