/** The sidecar's cache of memories and the pull protocol that fills it (src/agent_memory_gateway/outbox.py,
    src/agent_memory_gateway/sidecar_client.py). The gateway's pages are arbitrary. */
module SidecarCache {

  /** What authorises a page; "" and 0 stand for a missing policy, epoch or auth epoch. */
  datatype Stamp = Stamp(epoch: string, policy: string, device: int, agent: int)

  datatype SyncState = SyncState(stamp: Stamp, revision: int, cursor: string)

  const UNSYNCED := SyncState(Stamp("", "", 0, 0), 0, "")

  datatype CacheKey = CacheKey(workspace: string, id: string)

  /** delivered is a history variable: the stamp of the page that brought this payload. The source keeps only the
      payload. */
  datatype Cached = Cached(revision: int, delivered: Stamp)

  datatype Local = Local(cache: map<CacheKey, Cached>, sync: map<string, SyncState>)

  /** reference: marked as reference data, not instruction-like, and in a known status. */
  datatype Memory = Memory(id: string, revision: int, reference: bool)

  datatype Page = Page(reset: bool, stamp: Stamp, memories: seq<Memory>, tombstones: seq<string>, nextRevision: int,
                       cursor: string, more: bool)

  function StateOf(l: Local, workspace: string): SyncState {
    if workspace in l.sync then l.sync[workspace] else UNSYNCED
  }

  function Cleared(l: Local, workspace: string, epoch: string): Local {
    Local(map k | k in l.cache && k.workspace != workspace :: l.cache[k],
          l.sync[workspace := SyncState(Stamp(epoch, "", 0, 0), 0, "")])
  }

  /** INSERT ... ON CONFLICT DO UPDATE WHERE the new revision is not older. */
  function Put(cache: map<CacheKey, Cached>, workspace: string, m: Memory, stamp: Stamp): map<CacheKey, Cached> {
    var key := CacheKey(workspace, m.id);
    if key in cache && m.revision < cache[key].revision then cache else cache[key := Cached(m.revision, stamp)]
  }

  function PutAll(cache: map<CacheKey, Cached>, workspace: string, memories: seq<Memory>, stamp: Stamp): map<CacheKey, Cached> {
    if memories == [] then cache
    else Put(PutAll(cache, workspace, memories[..|memories| - 1], stamp), workspace, memories[|memories| - 1], stamp)
  }

  function DropAll(cache: map<CacheKey, Cached>, workspace: string, refs: seq<string>): map<CacheKey, Cached> {
    if refs == [] then cache
    else
      var ref := refs[|refs| - 1];
      var rest := DropAll(cache, workspace, refs[..|refs| - 1]);
      if ref == "" then rest else rest - {CacheKey(workspace, ref)}
  }

  predicate Acceptable(m: Memory) {
    m.reference && m.id != "" && m.revision > 0
  }

  /** The page is refused as a whole, before anything is written. */
  predicate Refused(l: Local, workspace: string, p: Page) {
    || p.stamp.epoch == ""
    || (!p.reset && (StateOf(l, workspace).stamp.epoch != "" && StateOf(l, workspace).stamp.epoch != p.stamp.epoch))
    || (!p.reset && exists m <- p.memories :: !Acceptable(m))
  }

  function Applied(l: Local, workspace: string, p: Page): Local {
    if p.reset then Cleared(l, workspace, p.stamp.epoch)
    else
      Local(DropAll(PutAll(l.cache, workspace, p.memories, p.stamp), workspace, p.tombstones),
            l.sync[workspace := SyncState(p.stamp, p.nextRevision, p.cursor)])
  }

  predicate PolicyChanged(recorded: Stamp, offered: Stamp) {
    recorded.policy != "" && recorded.policy != offered.policy
  }

  predicate AuthChanged(recorded: Stamp, offered: Stamp) {
    recorded.device > 0 && recorded.agent > 0 && (recorded.device != offered.device || recorded.agent != offered.agent)
  }

  datatype PullReply = PullFailure | PullUnreadable | PullPage(page: Page)

  datatype Ending = Complete | Continue | Unavailable | Raised

  datatype Pulled = Pulled(local: Local, ending: Ending)

  /** One round of the pull loop. */
  function PullOnce(l: Local, workspace: string, reply: PullReply): Pulled {
    match reply
    case PullFailure => Pulled(l, Unavailable)
    case PullUnreadable => Pulled(l, Raised)
    case PullPage(p) =>
      var recorded := StateOf(l, workspace).stamp;
      if p.reset then
        if Refused(l, workspace, p) then Pulled(l, Raised) else Pulled(Applied(l, workspace, p), Continue)
      else if PolicyChanged(recorded, p.stamp) || AuthChanged(recorded, p.stamp) then
        Pulled(Cleared(l, workspace, p.stamp.epoch), Continue)
      else if Refused(l, workspace, p) then Pulled(l, Raised)
      else Pulled(Applied(l, workspace, p), if p.more then Continue else Complete)
  }

  const PULL_ROUNDS := 100

  /** The gateway: any answer to any request, here named by the state the request carries and the round. */
  type PullServer = (SyncState, nat) -> PullReply

  function Pull(l: Local, workspace: string, server: PullServer, round: nat): Pulled
    requires round <= PULL_ROUNDS
    decreases PULL_ROUNDS - round
  {
    if round == PULL_ROUNDS then Pulled(l, Unavailable)
    else
      var step := PullOnce(l, workspace, server(StateOf(l, workspace), round));
      if step.ending == Continue then Pull(step.local, workspace, server, round + 1) else step
  }

  // ---- which stamps protect the cache

  predicate Recognisable(stamp: Stamp) {
    stamp.epoch != "" && stamp.policy != "" && stamp.device > 0 && stamp.agent > 0
  }

  predicate WellFormed(reply: PullReply) {
    reply.PullPage? ==> reply.page.reset || Recognisable(reply.page.stamp)
  }

  ghost predicate UnderRecorded(l: Local, workspace: string) {
    forall k <- l.cache | k.workspace == workspace :: l.cache[k].delivered == StateOf(l, workspace).stamp
  }

  /** Every cached memory was delivered under exactly the stamp recorded for its workspace. */
  ghost predicate Coherent(l: Local) {
    forall k <- l.cache :: Recognisable(l.cache[k].delivered) && l.cache[k].delivered == StateOf(l, k.workspace).stamp
  }

  lemma {:induction false} PutAllHas(cache: map<CacheKey, Cached>, workspace: string, memories: seq<Memory>, stamp: Stamp)
    ensures var put := PutAll(cache, workspace, memories, stamp);
      && (forall k <- put :: (k in cache && put[k] == cache[k]) || (k.workspace == workspace && put[k].delivered == stamp))
      && (forall k <- cache :: k in put && put[k].revision >= cache[k].revision && (k.workspace != workspace ==> put[k] == cache[k]))
      && (forall m <- memories :: CacheKey(workspace, m.id) in put && put[CacheKey(workspace, m.id)].revision >= m.revision)
  {
    if memories != [] {
      var n := |memories| - 1;
      PutAllHas(cache, workspace, memories[..n], stamp);
      assert memories == memories[..n] + [memories[n]];
    }
  }

  lemma {:induction false} DropAllHas(cache: map<CacheKey, Cached>, workspace: string, refs: seq<string>)
    ensures var left := DropAll(cache, workspace, refs);
      forall k :: k in left <==> k in cache && !(k.workspace == workspace && k.id != "" && k.id in refs)
    ensures forall k <- DropAll(cache, workspace, refs) :: DropAll(cache, workspace, refs)[k] == cache[k]
  {
    if refs != [] {
      var n := |refs| - 1;
      DropAllHas(cache, workspace, refs[..n]);
      assert refs == refs[..n] + [refs[n]];
    }
  }

  lemma AppliedKeeps(l: Local, workspace: string, p: Page)
    requires !p.reset
    ensures var l' := Applied(l, workspace, p);
      && StateOf(l', workspace).stamp == p.stamp
      && (forall w | w != workspace :: StateOf(l', w) == StateOf(l, w))
      && (forall k <- l'.cache :: (k in l.cache && l'.cache[k] == l.cache[k]) || (k.workspace == workspace && l'.cache[k].delivered == p.stamp))
      && (forall k <- l.cache | k.workspace != workspace :: k in l'.cache && l'.cache[k] == l.cache[k])
  {
    PutAllHas(l.cache, workspace, p.memories, p.stamp);
    DropAllHas(PutAll(l.cache, workspace, p.memories, p.stamp), workspace, p.tombstones);
    hide PutAll, DropAll;
  }

  lemma PullOnceKeepsCoherent(l: Local, workspace: string, reply: PullReply)
    requires Coherent(l) && WellFormed(reply)
    ensures Coherent(PullOnce(l, workspace, reply).local)
  {
    if reply.PullPage? && !reply.page.reset {
      AppliedKeeps(l, workspace, reply.page);
      hide PutAll, DropAll;
    }
  }

  lemma {:induction false} PullKeepsCoherent(l: Local, workspace: string, server: PullServer, round: nat)
    requires Coherent(l) && round <= PULL_ROUNDS && forall state, n :: WellFormed(server(state, n))
    ensures Coherent(Pull(l, workspace, server, round).local)
    decreases PULL_ROUNDS - round
  {
    hide Coherent, PullOnce, WellFormed;
    if round < PULL_ROUNDS {
      var reply := server(StateOf(l, workspace), round);
      PullOnceKeepsCoherent(l, workspace, reply);
      if PullOnce(l, workspace, reply).ending == Continue {
        PullKeepsCoherent(PullOnce(l, workspace, reply).local, workspace, server, round + 1);
      }
    }
  }

  datatype LocalAction = Pulling(workspace: string, server: PullServer) | PushReset(workspace: string, epoch: string)

  function Do(l: Local, a: LocalAction): Local {
    match a
    case Pulling(workspace, server) => Pull(l, workspace, server, 0).local
    case PushReset(workspace, epoch) => if epoch == "" then l else Cleared(l, workspace, epoch)
  }

  function Run(l: Local, actions: seq<LocalAction>): Local
    decreases |actions|
  {
    if actions == [] then l else Run(Do(l, actions[0]), actions[1..])
  }

  /** Through any sequence of pulls, resets, policy and permission changes, against a gateway that always names its
      epoch, policy and auth epochs, a cached memory is one delivered under the stamp now recorded. */
  lemma {:induction false} CacheIsAlwaysCurrent(l: Local, actions: seq<LocalAction>)
    requires Coherent(l)
    requires forall i | 0 <= i < |actions| && actions[i].Pulling? :: forall state, n :: WellFormed(actions[i].server(state, n))
    ensures Coherent(Run(l, actions))
    decreases |actions|
  {
    hide Pull, WellFormed;
    if actions != [] {
      if actions[0].Pulling? { PullKeepsCoherent(l, actions[0].workspace, actions[0].server, 0); }
      CacheIsAlwaysCurrent(Do(l, actions[0]), actions[1..]);
    }
  }

  /** A recorded stamp keeps the cache in step with every later reply exactly when it names a policy and both auth
      epochs; a missing one switches its comparison off. */
  lemma ProtectsExactly(l: Local, workspace: string, key: CacheKey)
    requires UnderRecorded(l, workspace) && key in l.cache && key.workspace == workspace
    requires StateOf(l, workspace).stamp.epoch != ""
    ensures (forall reply :: UnderRecorded(PullOnce(l, workspace, reply).local, workspace)) <==> Recognisable(StateOf(l, workspace).stamp)
  {
    var stamp := StateOf(l, workspace).stamp;
    if Recognisable(stamp) {
      forall reply ensures UnderRecorded(PullOnce(l, workspace, reply).local, workspace) {
        RecognisedStampProtects(l, workspace, reply);
      }
    } else {
      var other := if stamp.policy == "" then stamp.(policy := "p") else if stamp.device <= 0 then stamp.(device := stamp.device + 1)
                   else stamp.(agent := stamp.agent + 1);
      var reply := PullPage(Page(false, other, [], [], 0, "", false));
      assert PullOnce(l, workspace, reply).local.cache[key] == l.cache[key];
      assert !UnderRecorded(PullOnce(l, workspace, reply).local, workspace);
    }
  }

  lemma RecognisedStampProtects(l: Local, workspace: string, reply: PullReply)
    requires UnderRecorded(l, workspace) && Recognisable(StateOf(l, workspace).stamp)
    ensures UnderRecorded(PullOnce(l, workspace, reply).local, workspace)
  {
    if reply.PullPage? && !reply.page.reset {
      AppliedKeeps(l, workspace, reply.page);
      hide PutAll, DropAll;
    }
  }

  /** What an accepted page does to its workspace: its memories are cached at their revision or a newer one unless
      tombstoned, no cached revision goes back, and nothing tombstoned stays. */
  lemma PageIsReflected(l: Local, workspace: string, p: Page)
    requires !p.reset && !Refused(l, workspace, p)
    ensures var cache := Applied(l, workspace, p).cache;
      && (forall m <- p.memories | m.id !in p.tombstones ::
            CacheKey(workspace, m.id) in cache && cache[CacheKey(workspace, m.id)].revision >= m.revision)
      && (forall k <- l.cache | k in cache :: cache[k].revision >= l.cache[k].revision)
      && (forall ref <- p.tombstones | ref != "" :: CacheKey(workspace, ref) !in cache)
      && (forall k <- l.cache | k !in cache :: k.workspace == workspace && k.id in p.tombstones)
  {
    PutAllHas(l.cache, workspace, p.memories, p.stamp);
    DropAllHas(PutAll(l.cache, workspace, p.memories, p.stamp), workspace, p.tombstones);
    hide PutAll, DropAll;
  }

  lemma PullOnceKeepsOthers(l: Local, workspace: string, reply: PullReply, k: CacheKey)
    requires k.workspace != workspace
    ensures var l' := PullOnce(l, workspace, reply).local;
      && (k in l'.cache <==> k in l.cache) && (k in l.cache ==> l'.cache[k] == l.cache[k])
      && StateOf(l', k.workspace) == StateOf(l, k.workspace)
  {
    if reply.PullPage? && !reply.page.reset {
      AppliedKeeps(l, workspace, reply.page);
      hide PutAll, DropAll;
    }
  }

  /** A pull leaves every other workspace alone. */
  lemma {:induction false} PullKeepsOthers(l: Local, workspace: string, server: PullServer, round: nat, k: CacheKey)
    requires round <= PULL_ROUNDS && k.workspace != workspace
    ensures var l' := Pull(l, workspace, server, round).local;
      && (k in l'.cache <==> k in l.cache) && (k in l.cache ==> l'.cache[k] == l.cache[k])
      && StateOf(l', k.workspace) == StateOf(l, k.workspace)
    decreases PULL_ROUNDS - round
  {
    hide PullOnce;
    if round < PULL_ROUNDS {
      var reply := server(StateOf(l, workspace), round);
      PullOnceKeepsOthers(l, workspace, reply, k);
      if PullOnce(l, workspace, reply).ending == Continue {
        PullKeepsOthers(PullOnce(l, workspace, reply).local, workspace, server, round + 1, k);
      }
    }
  }

  lemma {:induction false} RunExtends(l: Local, actions: seq<LocalAction>, a: LocalAction)
    ensures Run(l, actions + [a]) == Do(Run(l, actions), a)
    decreases |actions|
  {
    hide Do;
    if actions == [] {
      assert [] + [a] == [a] && [a][1..] == [];
    } else {
      assert (actions + [a])[1..] == actions[1..] + [a];
      RunExtends(Do(l, actions[0]), actions[1..], a);
    }
  }
}
