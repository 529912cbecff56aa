/** Devices, agents, refresh credentials and access tokens (src/agent_memory_gateway/identity_service.py,
    src/agent_memory_gateway/auth.py, src/agent_memory_gateway/sidecar_auth.py). Secrets are numbered in the order
    they are generated, so a random secret never repeats; a hash is compared by comparing what was hashed. */
module Identity {
  import opened Names

  type Secret = nat

  const REPLAY_SECONDS := 30.0
  const TTL_SECONDS := 7776000.0

  datatype Device = Device(tenant: string, user: string, active: bool, epoch: nat)

  datatype Agent = Agent(device: string, active: bool, epoch: nat)

  /** The replacement kept for replays, with the version of the key that encrypted it. */
  datatype Sealed = Sealed(secret: Secret, keyVersion: nat)

  datatype Credential = Credential(device: string, current: Secret, previous: Option<Secret>, replayUntil: Option<real>,
                                   replacement: Option<Sealed>, expiresAt: real, revoked: bool, epoch: nat)

  datatype PairingCode = PairingCode(tenant: string, user: string, expiresAt: real, usedBy: Option<string>)

  datatype Registry = Registry(devices: map<string, Device>, agents: map<string, Agent>, credentials: map<string, Credential>,
                               codes: map<string, PairingCode>, generated: nat)

  /** The claims of a signed access token; its expiry is left to the signer. */
  datatype Token = Token(tenant: string, user: string, device: string, agent: string, deviceEpoch: nat, agentEpoch: nat)

  datatype AuthError =
    | CodeInvalid | CodeUsed | CodeExpired | DeviceConflict | AgentConflict | DeviceNotActive | AgentNotActive
    | RefreshInvalid | RefreshRevoked | ReplayUnavailable | ReuseDetected | AgentForbidden | RefreshExists
    | ConstraintViolated

  datatype Reply = Paired(credential: string, secret: Secret) | Refreshed(token: Token, secret: Secret, replayed: bool)
    | Revoked(epoch: nat) | Registered | Failed(error: AuthError)

  datatype Step = Step(registry: Registry, reply: Reply)

  // ---- operations

  /** One pairing code pairs one device with its agents and hands out the first refresh secret. */
  function Pair(r: Registry, code: string, device: string, agents: set<string>, credential: string, now: real): Step {
    if code !in r.codes then Step(r, Failed(CodeInvalid))
    else if r.codes[code].usedBy.Some? then Step(r, Failed(CodeUsed))
    else if r.codes[code].expiresAt <= now then Step(r, Failed(CodeExpired))
    else if device in r.devices then Step(r, Failed(DeviceConflict))
    else if exists a <- agents :: a in r.agents then Step(r, Failed(AgentConflict))
    else if credential in r.credentials then Step(r, Failed(ConstraintViolated))
    else
      var secret := r.generated;
      Step(Registry(r.devices[device := Device(r.codes[code].tenant, r.codes[code].user, true, 1)],
                    r.agents + map a | a in agents :: Agent(device, true, 1),
                    r.credentials[credential := Credential(device, secret, None, None, None, now + TTL_SECONDS, false, 1)],
                    r.codes[code := r.codes[code].(usedBy := Some(device))],
                    r.generated + 1),
           Paired(credential, secret))
  }

  function BumpAgents(agents: map<string, Agent>, device: string): map<string, Agent> {
    map a | a in agents :: if agents[a].device == device then agents[a].(epoch := agents[a].epoch + 1) else agents[a]
  }

  function RevokeAgentsOf(agents: map<string, Agent>, device: string): map<string, Agent> {
    map a | a in agents ::
      if agents[a].device == device && agents[a].active then agents[a].(active := false, epoch := agents[a].epoch + 1) else agents[a]
  }

  function RevokeCredentialsOf(credentials: map<string, Credential>, device: string): map<string, Credential> {
    map c | c in credentials :: if credentials[c].device == device then credentials[c].(revoked := true) else credentials[c]
  }

  function TokenFor(r: Registry, device: string, agent: string): Token
    requires device in r.devices && agent in r.agents
  {
    Token(r.devices[device].tenant, r.devices[device].user, device, agent, r.devices[device].epoch, r.agents[agent].epoch)
  }

  predicate InWindow(c: Credential, now: real) {
    c.replayUntil.Some? && c.replayUntil.value > now
  }

  /** A spent secret outside its window: the credential dies and every token of the device with it. */
  function AfterReuse(r: Registry, id: string): Registry
    requires id in r.credentials && r.credentials[id].device in r.devices
  {
    var d := r.credentials[id].device;
    r.(credentials := r.credentials[id := r.credentials[id].(revoked := true)],
       devices := r.devices[d := r.devices[d].(epoch := r.devices[d].epoch + 1)],
       agents := BumpAgents(r.agents, d))
  }

  function AfterRotation(r: Registry, id: string, keyVersion: nat, now: real): Registry
    requires id in r.credentials
  {
    var c := r.credentials[id];
    r.(credentials := r.credentials[id := c.(current := r.generated, previous := Some(c.current),
                                             replayUntil := Some(now + REPLAY_SECONDS),
                                             replacement := Some(Sealed(r.generated, keyVersion)))],
       generated := r.generated + 1)
  }

  predicate ReuseOf(c: Credential, presented: Secret, now: real) {
    c.previous == Some(presented) && !InWindow(c, now)
  }

  /** refresh: answer the current secret by rotating it, the previous one by replaying the rotation inside its
      window, and treat the previous one outside the window as stolen. */
  function Refresh(r: Registry, id: string, presented: Secret, agent: string, keyVersion: nat, now: real): Step {
    if id !in r.credentials || r.credentials[id].device !in r.devices || r.credentials[id].revoked
       || r.credentials[id].expiresAt <= now then Step(r, Failed(RefreshInvalid))
    else
      var c := r.credentials[id];
      var d := r.devices[c.device];
      if !d.active || c.epoch != d.epoch then Step(r, Failed(RefreshRevoked))
      else if ReuseOf(c, presented, now) then Step(AfterReuse(r, id), Failed(ReuseDetected))
      else if c.previous == Some(presented) && (c.replacement.None? || c.replacement.value.keyVersion != keyVersion) then
        Step(r, Failed(ReplayUnavailable))
      else if c.previous != Some(presented) && c.current != presented then Step(r, Failed(RefreshInvalid))
      else if agent !in r.agents || r.agents[agent].device != c.device || !r.agents[agent].active then
        Step(r, Failed(AgentForbidden))
      else if c.previous == Some(presented) then
        Step(r, Refreshed(TokenFor(r, c.device, agent), c.replacement.value.secret, true))
      else if now + REPLAY_SECONDS > c.expiresAt then Step(r, Failed(ConstraintViolated))
      else Step(AfterRotation(r, id, keyVersion, now), Refreshed(TokenFor(r, c.device, agent), r.generated, false))
  }

  function RevokeDevice(r: Registry, device: string): Step {
    if device !in r.devices || !r.devices[device].active then Step(r, Failed(DeviceNotActive))
    else
      var d := r.devices[device];
      Step(r.(devices := r.devices[device := d.(active := false, epoch := d.epoch + 1)],
              agents := RevokeAgentsOf(r.agents, device),
              credentials := RevokeCredentialsOf(r.credentials, device)),
           Revoked(d.epoch + 1))
  }

  function RevokeAgent(r: Registry, agent: string): Step {
    if agent !in r.agents || !r.agents[agent].active then Step(r, Failed(AgentNotActive))
    else
      var a := r.agents[agent];
      Step(r.(agents := r.agents[agent := a.(active := false, epoch := a.epoch + 1)]), Revoked(a.epoch + 1))
  }

  function LiveCredentials(r: Registry, device: string, now: real): set<string> {
    set c | c in r.credentials && r.credentials[c].device == device && !r.credentials[c].revoked && r.credentials[c].expiresAt > now
  }

  /** Register a secret generated on the device, unless another credential of the device is still live. */
  function RegisterBootstrap(r: Registry, device: string, id: string, secret: Secret, now: real): Step {
    if device !in r.devices || !r.devices[device].active then Step(r, Failed(DeviceNotActive))
    else if LiveCredentials(r, device, now) != {} then
      if LiveCredentials(r, device, now) == {id} && r.credentials[id].current == secret then Step(r, Registered)
      else Step(r, Failed(RefreshExists))
    else if id in r.credentials then Step(r, Failed(ConstraintViolated))
    else
      Step(r.(credentials := r.credentials[id := Credential(device, secret, None, None, None, now + TTL_SECONDS, false,
                                                            r.devices[device].epoch)],
              generated := if secret < r.generated then r.generated else secret + 1),
           Registered)
  }

  /** authenticate: the token's identity and both epochs against the stored ones. */
  predicate Accepted(r: Registry, t: Token) {
    && t.device in r.devices && t.agent in r.agents
    && r.devices[t.device].tenant == t.tenant && r.devices[t.device].user == t.user
    && r.devices[t.device].active && r.devices[t.device].epoch == t.deviceEpoch
    && r.agents[t.agent].device == t.device
    && r.agents[t.agent].active && r.agents[t.agent].epoch == t.agentEpoch
  }

  /** The identity service and its administration, each method one transaction. */
  class IdentityService {
    var devices: map<string, Device>
    var agents: map<string, Agent>
    var credentials: map<string, Credential>
    var codes: map<string, PairingCode>
    var generated: nat

    ghost function State(): Registry
      reads this
    {
      Registry(devices, agents, credentials, codes, generated)
    }

    constructor ()
      ensures State() == Registry(map[], map[], map[], map[], 0)
    {
      devices, agents, credentials, codes, generated := map[], map[], map[], map[], 0;
    }

    method CreatePairingCode(code: string, tenant: string, user: string, expiresAt: real)
      requires code !in codes
      modifies this`codes
      ensures codes == old(codes)[code := PairingCode(tenant, user, expiresAt, None)]
    {
      codes := codes[code := PairingCode(tenant, user, expiresAt, None)];
    }

    method PairDevice(code: string, device: string, newAgents: set<string>, credential: string, now: real) returns (reply: Reply)
      modifies this
      ensures Step(State(), reply) == Pair(old(State()), code, device, newAgents, credential, now)
    {
      if code !in codes { return Failed(CodeInvalid); }
      var used := codes[code];
      if used.usedBy.Some? { return Failed(CodeUsed); }
      if used.expiresAt <= now { return Failed(CodeExpired); }
      if device in devices { return Failed(DeviceConflict); }
      if exists a <- newAgents :: a in agents { return Failed(AgentConflict); }
      if credential in credentials { return Failed(ConstraintViolated); }
      devices := devices[device := Device(used.tenant, used.user, true, 1)];
      agents := agents + map a | a in newAgents :: Agent(device, true, 1);
      credentials := credentials[credential := Credential(device, generated, None, None, None, now + TTL_SECONDS, false, 1)];
      codes := codes[code := used.(usedBy := Some(device))];
      reply := Paired(credential, generated);
      generated := generated + 1;
    }

    method RefreshToken(id: string, presented: Secret, agent: string, keyVersion: nat, now: real) returns (reply: Reply)
      modifies this
      ensures Step(State(), reply) == Refresh(old(State()), id, presented, agent, keyVersion, now)
    {
      if id !in credentials || credentials[id].device !in devices { return Failed(RefreshInvalid); }
      var c, d := credentials[id], devices[credentials[id].device];
      if c.revoked || c.expiresAt <= now { return Failed(RefreshInvalid); }
      if !d.active || c.epoch != d.epoch { return Failed(RefreshRevoked); }
      var replayed := false;
      var secret := generated;
      if c.previous == Some(presented) {
        if c.replayUntil.Some? && c.replayUntil.value > now {
          if c.replacement.None? || c.replacement.value.keyVersion != keyVersion { return Failed(ReplayUnavailable); }
          secret := c.replacement.value.secret;
          replayed := true;
        } else {
          credentials := credentials[id := c.(revoked := true)];
          devices := devices[c.device := d.(epoch := d.epoch + 1)];
          agents := BumpAgents(agents, c.device);
          return Failed(ReuseDetected);
        }
      } else if c.current != presented {
        return Failed(RefreshInvalid);
      }
      if agent !in agents || agents[agent].device != c.device || !agents[agent].active { return Failed(AgentForbidden); }
      if !replayed {
        if now + REPLAY_SECONDS > c.expiresAt { return Failed(ConstraintViolated); }
        credentials := credentials[id := c.(current := secret, previous := Some(c.current), replayUntil := Some(now + REPLAY_SECONDS),
                                            replacement := Some(Sealed(secret, keyVersion)))];
        generated := generated + 1;
      }
      return Refreshed(Token(d.tenant, d.user, c.device, agent, d.epoch, agents[agent].epoch), secret, replayed);
    }

    method RevokeDeviceAccess(device: string) returns (reply: Reply)
      modifies this
      ensures Step(State(), reply) == RevokeDevice(old(State()), device)
    {
      if device !in devices || !devices[device].active { return Failed(DeviceNotActive); }
      var epoch := devices[device].epoch + 1;
      devices := devices[device := devices[device].(active := false, epoch := epoch)];
      agents := RevokeAgentsOf(agents, device);
      credentials := RevokeCredentialsOf(credentials, device);
      return Revoked(epoch);
    }

    method RevokeAgentAccess(agent: string) returns (reply: Reply)
      modifies this
      ensures Step(State(), reply) == RevokeAgent(old(State()), agent)
    {
      if agent !in agents || !agents[agent].active { return Failed(AgentNotActive); }
      var epoch := agents[agent].epoch + 1;
      agents := agents[agent := agents[agent].(active := false, epoch := epoch)];
      return Revoked(epoch);
    }
  }

  /** The client's half: it reads the stored secret, asks for a token and stores the replacement it is sent. */
  datatype Fate = RequestLost | ReplyLost | Delivered | WriteFailed

  datatype CachedToken = CachedToken(token: Token, refreshAfter: real)

  datatype ClientAnswer = Granted(token: Token) | CredentialMissing | Unavailable | Refused(error: AuthError) | ResponseInvalid
    | RotationFailed

  class RefreshTokenProvider {
    const id: string
    var stored: Option<Secret>
    var tokens: map<string, CachedToken>

    constructor (id: string, secret: Secret)
      ensures this.id == id && stored == Some(secret) && tokens == map[]
    {
      this.id := id;
      stored, tokens := Some(secret), map[];
    }

    method AccessToken(agent: string, gateway: IdentityService, fate: Fate, keyVersion: nat, lifetime: int, monotonic: real, now: real)
      returns (answer: ClientAnswer)
      modifies this, gateway
      ensures var cached := agent in old(tokens) && old(tokens)[agent].refreshAfter > monotonic;
        if cached || old(stored).None? then
          && gateway.State() == old(gateway.State()) && stored == old(stored) && tokens == old(tokens)
          && answer == if cached then Granted(old(tokens)[agent].token) else CredentialMissing
        else
          var step := Refresh(old(gateway.State()), id, old(stored).value, agent, keyVersion, now);
          && gateway.State() == (if fate == RequestLost then old(gateway.State()) else step.registry)
          && (fate == Delivered && lifetime > 0 && step.reply.Refreshed? ==>
                && stored == Some(step.reply.secret) && answer == Granted(step.reply.token)
                && tokens.Keys == old(tokens).Keys + {agent} && tokens[agent].token == step.reply.token)
          && (fate != Delivered || lifetime <= 0 || !step.reply.Refreshed? ==> stored == old(stored) && tokens == old(tokens) && !answer.Granted?)
    {
      if agent in tokens && tokens[agent].refreshAfter > monotonic { return Granted(tokens[agent].token); }
      if stored.None? { return CredentialMissing; }
      if fate == RequestLost { return Unavailable; }
      var reply := gateway.RefreshToken(id, stored.value, agent, keyVersion, now);
      if fate == ReplyLost { return Unavailable; }
      if reply.Failed? { return Refused(reply.error); }
      if lifetime <= 0 { return ResponseInvalid; }
      if fate == WriteFailed { return RotationFailed; }
      stored := Some(reply.secret);
      tokens := tokens[agent := CachedToken(reply.token, monotonic + (if lifetime - 60 > 1 then lifetime - 60 else 1) as real)];
      return Granted(reply.token);
    }
  }
}
