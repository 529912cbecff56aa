/** Identifiers and small shared datatypes of the gateway. */
module Names {

  datatype Option<+T> = None | Some(value: T)

  /** A device-assigned event id is unique per device, so an event is named by the pair. */
  datatype EventKey = EventKey(device: string, event: string)

  datatype Scope = UserScope | WorkspaceScope | DeviceScope | AgentScope | PrivateScope

  /** The tuple behind scope_binding_hash; the hash is taken as injective. */
  datatype ScopeBinding = ScopeBinding(tenant: string, user: string, workspace: string, scope: Scope, ns: string)

  /** A GBrain fact id; the reference string gbrain:fact:<id> is in bijection with it. */
  type FactId = nat
}
