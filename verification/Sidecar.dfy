/** The outbox and the sidecar client as they run, proved against the functions of Outbox and SidecarCache
    (src/agent_memory_gateway/outbox.py, src/agent_memory_gateway/sidecar_client.py). */
module Sidecar {
  import opened Names
  import Q = Outbox
  import C = SidecarCache

  /** Insert an id into a list ordered by sequence number. */
  function InsertBySeq(entries: map<string, Q.Entry>, id: string, ids: seq<string>): seq<string>
    requires id in entries && forall other <- ids :: other in entries
  {
    if ids == [] || entries[id].seqNo < entries[ids[0]].seqNo then [id] + ids
    else [ids[0]] + InsertBySeq(entries, id, ids[1..])
  }

  predicate BySeq(entries: map<string, Q.Entry>, ids: seq<string>) {
    && (forall id <- ids :: id in entries)
    && forall i, j | 0 <= i < j < |ids| :: entries[ids[i]].seqNo < entries[ids[j]].seqNo
  }

  lemma {:induction false} InsertKeepsOrder(entries: map<string, Q.Entry>, id: string, ids: seq<string>)
    requires BySeq(entries, ids) && id in entries && forall other <- ids :: entries[other].seqNo != entries[id].seqNo
    ensures BySeq(entries, InsertBySeq(entries, id, ids))
    ensures forall other :: other in InsertBySeq(entries, id, ids) <==> other == id || other in ids
    decreases |ids|
  {
    if ids != [] {
      assert ids == [ids[0]] + ids[1..];
      if entries[id].seqNo < entries[ids[0]].seqNo {
        PrependKeepsOrder(entries, id, ids);
      } else {
        InsertKeepsOrder(entries, id, ids[1..]);
        PrependKeepsOrder(entries, ids[0], InsertBySeq(entries, id, ids[1..]));
      }
    }
  }

  lemma PrependKeepsOrder(entries: map<string, Q.Entry>, id: string, ids: seq<string>)
    requires BySeq(entries, ids) && id in entries && forall other <- ids :: entries[id].seqNo < entries[other].seqNo
    ensures BySeq(entries, [id] + ids)
  {
  }

  class DeviceOutbox {
    var entries: map<string, Q.Entry>
    var receipts: map<string, Q.Receipt>
    var counter: int
    var cache: map<C.CacheKey, C.Cached>
    var sync: map<string, C.SyncState>

    ghost function Queue(): Q.Queue
      reads this
    {
      Q.Queue(entries, receipts, counter)
    }

    ghost function Local(): C.Local
      reads this
    {
      C.Local(cache, sync)
    }

    constructor ()
      ensures Queue() == Q.EMPTY_QUEUE && Local() == C.Local(map[], map[])
    {
      entries, receipts, counter, cache, sync := map[], map[], 0, map[], map[];
    }

    /** Opening an existing database. */
    method Reopen()
      modifies this`entries
      ensures Queue() == Q.Reopened(old(Queue()))
    {
      entries := map id | id in entries ::
        if entries[id].state == Q.InFlight then entries[id].(state := Q.Failing, due := None) else entries[id];
    }

    method PrepareEvent() returns (seqNo: int)
      modifies this`counter
      ensures Queue() == Q.Prepared(old(Queue())) && seqNo == old(counter) + 1
    {
      counter := counter + 1;
      seqNo := counter;
    }

    method Enqueue(id: string, seqNo: int, workspace: string) returns (ok: bool)
      modifies this`entries
      ensures ok == Q.CanEnqueue(old(Queue()), id, seqNo) && Queue() == Q.Enqueued(old(Queue()), id, seqNo, workspace)
    {
      if id == "" || id in entries || exists other <- entries :: entries[other].seqNo == seqNo { return false; }
      entries := entries[id := Q.Entry(seqNo, workspace, Q.Waiting, 0, None)];
      ok := true;
    }

    /** The events that may be sent now, oldest sequence number first. */
    method ListEvents(now: real) returns (ids: seq<string>)
      requires Q.Sound(Queue())
      ensures BySeq(entries, ids) && forall id :: id in ids <==> Q.Listed(Queue(), id, now)
    {
      ids := [];
      var todo := entries.Keys;
      while todo != {}
        invariant todo <= entries.Keys && BySeq(entries, ids)
        invariant forall id :: id in ids <==> Q.Listed(Queue(), id, now) && id !in todo
        decreases todo
      {
        var id :| id in todo;
        todo := todo - {id};
        var e := entries[id];
        if e.state.Sendable() && (e.due.None? || e.due.value <= now) {
          InsertKeepsOrder(entries, id, ids);
          ids := InsertBySeq(entries, id, ids);
        }
      }
    }

    method MarkInFlight(ids: seq<string>)
      modifies this`entries
      ensures Queue() == Q.MarkInFlight(old(Queue()), ids)
    {
      entries := map id | id in entries ::
        if id in ids && entries[id].state.Sendable() then entries[id].(state := Q.InFlight) else entries[id];
    }

    method MarkRetryable(id: string, backoff: Q.Backoff)
      modifies this`entries
      ensures Queue() == Q.MarkFailing(old(Queue()), id, Q.RetryAt(old(Queue()), id, backoff))
    {
      if id !in entries { return; }
      var attempts := entries[id].attempts + 1;
      entries := entries[id := entries[id].(state := Q.Failing, attempts := attempts, due := Some(backoff(id, attempts)))];
    }

    method MarkTerminal(id: string, result: Q.Result) returns (ok: bool)
      modifies this`entries, this`receipts
      ensures ok == Q.Terminal(result)
      ensures Queue() == if ok then Q.MarkTerminal(old(Queue()), id, Q.ReceiptOf(result)) else old(Queue())
    {
      if !Q.Terminal(result) { return false; }
      if id in entries { entries := entries[id := entries[id].(state := Q.Acked, due := None)]; }
      receipts := receipts[id := Q.Receipt(result.status, result.ack, result.error)];
      ok := true;
    }

    method MarkDeadLetter(id: string, error: string)
      modifies this`entries, this`receipts
      ensures Queue() == Q.MarkDeadLetter(old(Queue()), id, error)
    {
      if id !in entries { return; }
      entries := entries[id := entries[id].(state := Q.DeadLettered, due := None)];
      receipts := receipts[id := if id in receipts then receipts[id].(status := Q.Rejected, error := error)
                                 else Q.Receipt(Q.Rejected, "", error)];
    }

    method CleanupAcked() returns (removed: nat)
      modifies this`entries
      ensures Queue() == Q.CleanedUp(old(Queue()))
      ensures removed == |set id | id in old(entries) && old(entries)[id].state == Q.Acked|
    {
      removed := |set id | id in entries && entries[id].state == Q.Acked|;
      entries := map id | id in entries && entries[id].state != Q.Acked :: entries[id];
    }

    method ClearCache(workspace: string, epoch: string)
      modifies this`cache, this`sync
      ensures Local() == C.Cleared(old(Local()), workspace, epoch)
    {
      cache := map k | k in cache && k.workspace != workspace :: cache[k];
      sync := sync[workspace := C.SyncState(C.Stamp(epoch, "", 0, 0), 0, "")];
    }

    method ApplyPullPage(workspace: string, p: C.Page) returns (ok: bool)
      modifies this`cache, this`sync
      ensures ok == !C.Refused(old(Local()), workspace, p)
      ensures Local() == if ok then C.Applied(old(Local()), workspace, p) else old(Local())
    {
      if p.stamp.epoch == "" { return false; }
      if p.reset {
        ClearCache(workspace, p.stamp.epoch);
        return true;
      }
      var recorded := if workspace in sync then sync[workspace] else C.UNSYNCED;
      if recorded.stamp.epoch != "" && recorded.stamp.epoch != p.stamp.epoch { return false; }
      if exists m <- p.memories :: !C.Acceptable(m) { return false; }
      var i := 0;
      assert p.memories[..0] == [];
      while i < |p.memories|
        invariant i <= |p.memories| && sync == old(sync)
        invariant cache == C.PutAll(old(cache), workspace, p.memories[..i], p.stamp)
      {
        var m := p.memories[i];
        var key := C.CacheKey(workspace, m.id);
        assert p.memories[..i + 1][..i] == p.memories[..i];
        if !(key in cache && m.revision < cache[key].revision) { cache := cache[key := C.Cached(m.revision, p.stamp)]; }
        i := i + 1;
      }
      assert p.memories[..i] == p.memories;
      ghost var put := cache;
      i := 0;
      assert p.tombstones[..0] == [];
      while i < |p.tombstones|
        invariant i <= |p.tombstones| && sync == old(sync)
        invariant cache == C.DropAll(put, workspace, p.tombstones[..i])
      {
        assert p.tombstones[..i + 1][..i] == p.tombstones[..i];
        if p.tombstones[i] != "" { cache := cache - {C.CacheKey(workspace, p.tombstones[i])}; }
        i := i + 1;
      }
      assert p.tombstones[..i] == p.tombstones;
      sync := sync[workspace := C.SyncState(p.stamp, p.nextRevision, p.cursor)];
      ok := true;
    }
  }

  // ---- the client

  const BATCH_SIZE := 100

  type PushServer = (string, seq<string>) -> Q.PushResponse

  /** An event without a workspace travels with the workspace being synchronised. */
  function WorkspaceOf(e: Q.Entry, target: string): string {
    if e.workspace == "" then target else e.workspace
  }

  function OfWorkspace(entries: map<string, Q.Entry>, events: seq<string>, workspace: string, target: string): (ids: seq<string>)
    requires forall id <- events :: id in entries
    ensures forall id :: id in ids <==> id in events && WorkspaceOf(entries[id], target) == workspace
  {
    if events == [] then []
    else
      (if WorkspaceOf(entries[events[0]], target) == workspace then [events[0]] else [])
      + OfWorkspace(entries, events[1..], workspace, target)
  }

  function FirstOf(ids: seq<string>): (batch: seq<string>)
    ensures |batch| <= BATCH_SIZE && batch <= ids
  {
    if |ids| > BATCH_SIZE then ids[..BATCH_SIZE] else ids
  }

  /** The listed events of the same workspace that come before this one. */
  function Ahead(q: Q.Queue, id: string, target: string, now: real): set<string>
    requires id in q.entries
  {
    set other | other in q.entries && Q.Listed(q, other, now) && q.entries[other].seqNo < q.entries[id].seqNo
                && WorkspaceOf(q.entries[other], target) == WorkspaceOf(q.entries[id], target)
  }

  /** The event is in a batch, or a full batch of its workspace goes before it. */
  ghost predicate SentOrBehind(q: Q.Queue, pushes: seq<Q.Action>, id: string, target: string, now: real)
    requires id in q.entries
  {
    (exists a <- pushes :: a.Pushing? && id in a.batch) || |Ahead(q, id, target, now)| >= BATCH_SIZE
  }

  /** A batch of one workspace, sent under that workspace's name and settled by the answer it got. */
  ghost predicate SentTogether(q: Q.Queue, a: Q.Action, workspace: string, target: string, push: PushServer) {
    && a.Pushing? && 0 < |a.batch| <= BATCH_SIZE && a.response == push(workspace, a.batch)
    && forall id <- a.batch :: id in q.entries && WorkspaceOf(q.entries[id], target) == workspace
  }

  ghost predicate AllTogether(q: Q.Queue, pushes: seq<Q.Action>, target: string, push: PushServer) {
    forall a <- pushes :: exists w :: SentTogether(q, a, w, target, push)
  }

  /** The events of every workspace already dealt with are sent or behind a full batch. */
  ghost predicate Covered(q: Q.Queue, events: seq<string>, pushes: seq<Q.Action>, todo: set<string>, target: string, now: real)
    requires forall id <- events :: id in q.entries
  {
    forall id <- events | WorkspaceOf(q.entries[id], target) !in todo :: SentOrBehind(q, pushes, id, target, now)
  }

  ghost predicate PulledFor(locals: seq<C.LocalAction>, workspaces: set<string>, pull: string -> C.PullServer) {
    forall w <- workspaces :: C.Pulling(w, pull(w)) in locals
  }

  class SidecarClient {
    const outbox: DeviceOutbox

    constructor (outbox: DeviceOutbox)
      ensures this.outbox == outbox
    {
      this.outbox := outbox;
    }

    method Acknowledge(id: string, result: Q.Result) returns (terminal: bool)
      modifies outbox`entries, outbox`receipts
      ensures terminal == Q.Terminal(result)
      ensures outbox.Queue() == if terminal then Q.MarkTerminal(old(outbox.Queue()), id, Q.ReceiptOf(result)) else old(outbox.Queue())
    {
      terminal := false;
      if Q.Terminal(result) { terminal := outbox.MarkTerminal(id, result); }
    }

    method SettleEvent(id: string, response: Q.PushResponse, backoff: Q.Backoff)
      requires !response.Unreadable?
      modifies outbox`entries, outbox`receipts
      ensures outbox.Queue() == Q.Settle(old(outbox.Queue()), id, response, backoff)
    {
      match response
      case HttpFailure(code, retryable) =>
        if retryable { outbox.MarkRetryable(id, backoff); } else { outbox.MarkDeadLetter(id, code); }
      case TransportFailure => outbox.MarkRetryable(id, backoff);
      case ResetRequired(_) => outbox.MarkRetryable(id, backoff);
      case Results(results) =>
        var found := Q.ResultFor(results, id);
        if found.None? {
          outbox.MarkRetryable(id, backoff);
        } else {
          var terminal := Acknowledge(id, found.value);
          if !terminal {
            if found.value.retryable != Some(false) { outbox.MarkRetryable(id, backoff); }
            else { outbox.MarkDeadLetter(id, found.value.error); }
          }
        }
    }

    /** raised: the answer could not be decoded, or the outbox refused the reset, and the exception leaves the push. */
    method PushWorkspace(workspace: string, batch: seq<string>, response: Q.PushResponse, backoff: Q.Backoff) returns (raised: bool)
      modifies outbox
      ensures raised == Q.Raises(response)
      ensures outbox.Queue() == Q.Pushed(old(outbox.Queue()), batch, response, backoff)
      ensures outbox.Local() == if response.ResetRequired? then C.Do(old(outbox.Local()), C.PushReset(workspace, response.epoch))
                                else old(outbox.Local())
    {
      outbox.MarkInFlight(batch);
      ghost var sent := outbox.Queue();
      if response.Unreadable? { return true; }
      if response.ResetRequired? {
        var ok := outbox.ApplyPullPage(workspace, C.Page(true, C.Stamp(response.epoch, "", 0, 0), [], [], 0, "", false));
        if !ok { return true; }
      }
      ghost var local := outbox.Local();
      var i := 0;
      assert batch[..0] == [];
      while i < |batch|
        invariant i <= |batch| && outbox.Local() == local
        invariant outbox.Queue() == Q.SettleAll(sent, batch[..i], response, backoff)
      {
        assert batch[..i + 1][..i] == batch[..i];
        SettleEvent(batch[i], response, backoff);
        i := i + 1;
      }
      assert batch[..i] == batch;
      raised := false;
    }

    method PullWorkspace(workspace: string, server: C.PullServer) returns (ending: C.Ending)
      modifies outbox`cache, outbox`sync
      ensures C.Pulled(outbox.Local(), ending) == C.Pull(old(outbox.Local()), workspace, server, 0)
      ensures ending != C.Continue
    {
      var round := 0;
      while round < C.PULL_ROUNDS
        invariant round <= C.PULL_ROUNDS
        invariant C.Pull(outbox.Local(), workspace, server, round) == C.Pull(old(outbox.Local()), workspace, server, 0)
      {
        var state := if workspace in outbox.sync then outbox.sync[workspace] else C.UNSYNCED;
        var reply := server(state, round);
        if reply.PullFailure? { return C.Unavailable; }
        if reply.PullUnreadable? { return C.Raised; }
        var p := reply.page;
        if p.reset {
          var ok := outbox.ApplyPullPage(workspace, p);
          if !ok { return C.Raised; }
        } else if C.PolicyChanged(state.stamp, p.stamp) || C.AuthChanged(state.stamp, p.stamp) {
          outbox.ClearCache(workspace, p.stamp.epoch);
        } else {
          var ok := outbox.ApplyPullPage(workspace, p);
          if !ok { return C.Raised; }
          if !p.more { return C.Complete; }
        }
        round := round + 1;
      }
      return C.Unavailable;
    }
  
    /** One synchronisation of every workspace with queued events. It is a run of pushes and pulls, so whatever is
        proved of every run holds of it; unless the outbox raised, it leaves nothing it sent in flight. */
    method Sync(target: string, now: real, push: PushServer, pull: string -> C.PullServer, backoff: Q.Backoff)
      returns (raised: bool, ghost pushes: seq<Q.Action>, ghost locals: seq<C.LocalAction>)
      requires Q.Sound(outbox.Queue())
      modifies outbox
      ensures Q.Sound(outbox.Queue()) && outbox.Queue() == Q.Run(old(outbox.Queue()), pushes)
      ensures outbox.Local() == C.Run(old(outbox.Local()), locals)
      ensures AllTogether(old(outbox.Queue()), pushes, target, push)
      ensures !raised ==> forall id <- old(outbox.entries) | Q.Listed(old(outbox.Queue()), id, now) ::
        SentOrBehind(old(outbox.Queue()), pushes, id, target, now)
      ensures !raised ==> PulledFor(locals, {target}, pull)
      ensures !raised ==> forall id <- old(outbox.entries) | Q.Listed(old(outbox.Queue()), id, now) ::
        PulledFor(locals, {WorkspaceOf(old(outbox.entries)[id], target)}, pull)
      ensures outbox.entries.Keys == old(outbox.entries).Keys
      ensures forall id <- old(outbox.entries) | !Q.Listed(old(outbox.Queue()), id, now) :: outbox.entries[id] == old(outbox.entries)[id]
      ensures !raised ==> forall id <- old(outbox.entries) :: outbox.entries[id].state == Q.InFlight ==> old(outbox.entries)[id].state == Q.InFlight
    {
      ghost var start, local := outbox.Queue(), outbox.Local();
      assert Q.Run(start, []) == start && C.Run(local, []) == local;
      hide Q.Sound, Q.Run, C.Run;
      hide AllTogether, Covered, PulledFor, SentOrBehind;
      pushes, locals := [], [];
      var events := outbox.ListEvents(now);
      var known := outbox.entries;
      var workspaces := {target} + set id | id in events :: WorkspaceOf(known[id], target);
      var todo := workspaces;
      NothingDone(start, events, workspaces, target, now, push, pull);
      while todo != {}
        invariant Q.Sound(outbox.Queue()) && outbox.Queue() == Q.Run(start, pushes) && outbox.Local() == C.Run(local, locals)
        invariant AllTogether(start, pushes, target, push) && Covered(start, events, pushes, todo, target, now)
        invariant todo <= workspaces && PulledFor(locals, workspaces - todo, pull)
        invariant outbox.entries.Keys == known.Keys
        invariant forall id <- known | id !in events || WorkspaceOf(known[id], target) in todo :: outbox.entries[id] == known[id]
        invariant forall id <- known :: outbox.entries[id].state == Q.InFlight ==> known[id].state == Q.InFlight
        decreases todo
      {
        var workspace :| workspace in todo;
        todo := todo - {workspace};
        var batch := FirstOf(OfWorkspace(known, events, workspace, target));
        BatchStillListed(start, outbox.Queue(), events, workspace, target, now);
        ghost var sent, pulled := pushes, locals;
        raised, pushes, locals := SyncWorkspace(workspace, batch, now, push, pull(workspace), backoff, start, local, pushes, locals);
        TogetherStep(start, sent, pushes, batch, workspace, target, push);
        if raised { return; }
        CoverStep(start, events, sent, pushes, todo, workspace, target, now);
        PulledStep(pulled, locals, workspaces, todo, workspace, pull);
      }
      AllCovered(start, events, pushes, locals, workspaces, target, now, pull);
      raised := false;
    }

    /** The part of a synchronisation that concerns one workspace: push its batch, then pull. */
    method SyncWorkspace(workspace: string, batch: seq<string>, now: real, push: PushServer, pull: C.PullServer, backoff: Q.Backoff,
                         ghost start: Q.Queue, ghost local: C.Local, ghost pushes: seq<Q.Action>, ghost locals: seq<C.LocalAction>)
      returns (raised: bool, ghost pushes': seq<Q.Action>, ghost locals': seq<C.LocalAction>)
      requires Q.Sound(outbox.Queue()) && Q.IsBatch(outbox.Queue(), batch, now) && |batch| <= BATCH_SIZE
      requires outbox.Queue() == Q.Run(start, pushes) && outbox.Local() == C.Run(local, locals)
      modifies outbox
      ensures Q.Sound(outbox.Queue()) && outbox.Queue() == Q.Run(start, pushes') && outbox.Local() == C.Run(local, locals')
      ensures forall a <- pushes :: a in pushes'
      ensures forall a <- pushes' :: a in pushes || (a.Pushing? && a.batch == batch != [] && a.response == push(workspace, batch))
      ensures batch != [] ==> exists a <- pushes' :: a.Pushing? && a.batch == batch
      ensures forall a <- locals :: a in locals'
      ensures !raised ==> C.Pulling(workspace, pull) in locals'
      ensures outbox.entries.Keys == old(outbox.entries).Keys
      ensures forall id <- old(outbox.entries) | id !in batch :: outbox.entries[id] == old(outbox.entries)[id]
      ensures !raised ==> forall id <- old(outbox.entries) | id in batch :: outbox.entries[id].state != Q.InFlight
    {
      hide Q.Sound, Q.Pushed, C.Pull, Q.Run, C.Run;
      pushes', locals' := pushes, locals;
      if batch != [] {
        var response := push(workspace, batch);
        Q.PushEffect(outbox.Queue(), batch, now, response, backoff);
        Q.RunExtends(start, pushes, Q.Pushing(batch, now, response, backoff));
        pushes' := pushes + [Q.Pushing(batch, now, response, backoff)];
        if response.ResetRequired? {
          C.RunExtends(local, locals, C.PushReset(workspace, response.epoch));
          locals' := locals + [C.PushReset(workspace, response.epoch)];
        }
        raised := PushWorkspace(workspace, batch, response, backoff);
        if raised { return; }
      }
      C.RunExtends(local, locals', C.Pulling(workspace, pull));
      locals' := locals' + [C.Pulling(workspace, pull)];
      var ending := PullWorkspace(workspace, pull);
      raised := ending == C.Raised;
    }

    method CleanupConfirmed(confirmed: bool) returns (removed: nat)
      modifies outbox`entries
      ensures outbox.Queue() == if confirmed then Q.CleanedUp(old(outbox.Queue())) else old(outbox.Queue())
      ensures !confirmed ==> removed == 0
    {
      removed := 0;
      if confirmed { removed := outbox.CleanupAcked(); }
    }
  }

  /** The snapshot taken when the synchronisation began is still good for a workspace not yet pushed. */
  lemma BatchStillListed(start: Q.Queue, q: Q.Queue, events: seq<string>, workspace: string, target: string, now: real)
    requires forall id <- events :: id in start.entries && Q.Listed(start, id, now)
    requires forall id <- events | WorkspaceOf(start.entries[id], target) == workspace :: id in q.entries && q.entries[id] == start.entries[id]
    ensures Q.IsBatch(q, FirstOf(OfWorkspace(start.entries, events, workspace, target)), now)
    ensures forall id <- FirstOf(OfWorkspace(start.entries, events, workspace, target)) ::
      id in events && WorkspaceOf(start.entries[id], target) == workspace
  {
    var ids := OfWorkspace(start.entries, events, workspace, target);
    forall id | id in FirstOf(ids) ensures id in ids {
    }
  }

  lemma NothingDone(q: Q.Queue, events: seq<string>, workspaces: set<string>, target: string, now: real, push: PushServer, pull: string -> C.PullServer)
    requires forall id <- events :: id in q.entries && WorkspaceOf(q.entries[id], target) in workspaces
    ensures AllTogether(q, [], target, push) && Covered(q, events, [], workspaces, target, now) && PulledFor([], workspaces - workspaces, pull)
  {
  }

  lemma TogetherStep(q: Q.Queue, before: seq<Q.Action>, pushes: seq<Q.Action>, batch: seq<string>, workspace: string, target: string,
                     push: PushServer)
    requires AllTogether(q, before, target, push) && |batch| <= BATCH_SIZE
    requires forall id <- batch :: id in q.entries && WorkspaceOf(q.entries[id], target) == workspace
    requires forall a <- pushes :: a in before || (a.Pushing? && a.batch == batch != [] && a.response == push(workspace, batch))
    ensures AllTogether(q, pushes, target, push)
  {
    forall a <- pushes ensures exists w :: SentTogether(q, a, w, target, push) {
      if a !in before { assert SentTogether(q, a, workspace, target, push); }
    }
  }

  lemma CoverStep(q: Q.Queue, events: seq<string>, before: seq<Q.Action>, pushes: seq<Q.Action>, todo: set<string>, workspace: string,
                  target: string, now: real)
    requires BySeq(q.entries, events) && forall id :: id in events <==> Q.Listed(q, id, now)
    requires Covered(q, events, before, todo + {workspace}, target, now) && forall a <- before :: a in pushes
    requires var batch := FirstOf(OfWorkspace(q.entries, events, workspace, target));
      batch != [] ==> exists a <- pushes :: a.Pushing? && a.batch == batch
    ensures Covered(q, events, pushes, todo, target, now)
  {
    hide SentOrBehind;
    forall id <- events | WorkspaceOf(q.entries[id], target) !in todo ensures SentOrBehind(q, pushes, id, target, now) {
      if WorkspaceOf(q.entries[id], target) == workspace {
        FirstAreSent(q, events, pushes, workspace, target, now, id);
      } else {
        StillSent(q, before, pushes, id, target, now);
      }
    }
  }

  lemma PulledStep(before: seq<C.LocalAction>, locals: seq<C.LocalAction>, workspaces: set<string>, todo: set<string>, workspace: string,
                   pull: string -> C.PullServer)
    requires PulledFor(before, workspaces - (todo + {workspace}), pull) && forall a <- before :: a in locals
    requires C.Pulling(workspace, pull(workspace)) in locals
    ensures PulledFor(locals, workspaces - todo, pull)
  {
  }

  lemma AllCovered(q: Q.Queue, events: seq<string>, pushes: seq<Q.Action>, locals: seq<C.LocalAction>, workspaces: set<string>, target: string,
                   now: real, pull: string -> C.PullServer)
    requires forall id :: id in events <==> Q.Listed(q, id, now)
    requires target in workspaces && forall id <- events :: id in q.entries && WorkspaceOf(q.entries[id], target) in workspaces
    requires Covered(q, events, pushes, {}, target, now) && PulledFor(locals, workspaces - {}, pull)
    ensures PulledFor(locals, {target}, pull)
    ensures forall id <- q.entries | Q.Listed(q, id, now) ::
      SentOrBehind(q, pushes, id, target, now) && PulledFor(locals, {WorkspaceOf(q.entries[id], target)}, pull)
  {
  }

  lemma StillSent(q: Q.Queue, before: seq<Q.Action>, pushes: seq<Q.Action>, id: string, target: string, now: real)
    requires id in q.entries && SentOrBehind(q, before, id, target, now) && forall a <- before :: a in pushes
    ensures SentOrBehind(q, pushes, id, target, now)
  {
    hide Ahead;
  }

  lemma {:induction false} OfWorkspaceInOrder(entries: map<string, Q.Entry>, events: seq<string>, workspace: string, target: string)
    requires BySeq(entries, events)
    ensures BySeq(entries, OfWorkspace(entries, events, workspace, target))
    decreases |events|
  {
    if events != [] {
      OfWorkspaceInOrder(entries, events[1..], workspace, target);
      var rest := OfWorkspace(entries, events[1..], workspace, target);
      if WorkspaceOf(entries[events[0]], target) == workspace {
        forall id | id in rest ensures entries[events[0]].seqNo < entries[id].seqNo {
          assert id in events[1..];
        }
        PrependKeepsOrder(entries, events[0], rest);
      } else {
        assert [] + rest == rest;
      }
    }
  }

  /** A listed event of the workspace is in its batch, or the batch is full of events before it. */
  lemma FirstAreSent(q: Q.Queue, events: seq<string>, pushes: seq<Q.Action>, workspace: string, target: string, now: real, id: string)
    requires BySeq(q.entries, events) && id in events && WorkspaceOf(q.entries[id], target) == workspace
    requires forall other :: other in events <==> Q.Listed(q, other, now)
    requires var batch := FirstOf(OfWorkspace(q.entries, events, workspace, target));
      batch != [] ==> exists a <- pushes :: a.Pushing? && a.batch == batch
    ensures SentOrBehind(q, pushes, id, target, now)
  {
    hide OfWorkspace, Ahead, BySeq;
    var ids := OfWorkspace(q.entries, events, workspace, target);
    OfWorkspaceInOrder(q.entries, events, workspace, target);
    var i :| 0 <= i < |ids| && ids[i] == id;
    if i < BATCH_SIZE {
      assert FirstOf(ids)[i] == id;
    } else {
      var first := set other | other in ids[..BATCH_SIZE];
      FirstAreAhead(q, ids, i, target, now);
      FirstInOrder(q.entries, ids, BATCH_SIZE);
      DistinctCount(q.entries, ids[..BATCH_SIZE]);
      SubsetCount(first, Ahead(q, id, target, now));
    }
  }

  lemma FirstInOrder(entries: map<string, Q.Entry>, ids: seq<string>, n: nat)
    requires BySeq(entries, ids) && n <= |ids|
    ensures BySeq(entries, ids[..n])
  {
  }

  lemma FirstAreAhead(q: Q.Queue, ids: seq<string>, i: nat, target: string, now: real)
    requires BySeq(q.entries, ids) && BATCH_SIZE <= i < |ids|
    requires forall other <- ids :: Q.Listed(q, other, now) && WorkspaceOf(q.entries[other], target) == WorkspaceOf(q.entries[ids[i]], target)
    ensures forall other <- ids[..BATCH_SIZE] :: other in Ahead(q, ids[i], target, now)
  {
    hide WorkspaceOf;
    forall other | other in ids[..BATCH_SIZE] ensures other in Ahead(q, ids[i], target, now) {
      var j :| 0 <= j < BATCH_SIZE && ids[j] == other;
    }
  }

  lemma {:induction false} DistinctCount(entries: map<string, Q.Entry>, ids: seq<string>)
    requires BySeq(entries, ids)
    ensures |set id | id in ids| == |ids|
    decreases |ids|
  {
    if ids != [] {
      var n := |ids| - 1;
      FirstInOrder(entries, ids, n);
      LastIsNew(entries, ids);
      hide BySeq;
      DistinctCount(entries, ids[..n]);
      assert (set id | id in ids) == (set id | id in ids[..n]) + {ids[n]};
    }
  }

  lemma LastIsNew(entries: map<string, Q.Entry>, ids: seq<string>)
    requires BySeq(entries, ids) && ids != []
    ensures ids[|ids| - 1] !in ids[..|ids| - 1]
  {
  }

  lemma SubsetCount(a: set<string>, b: set<string>)
    requires a <= b
    ensures |a| <= |b|
  {
    assert b == a + (b - a);
  }
}
