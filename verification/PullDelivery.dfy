/** What one pull brings to the sidecar (src/agent_memory_gateway/sidecar_client.py): every page of a gateway that pages
    by revision and cursor, and nothing stale after a change of authority. The pages are written on their own fields. */
module PullDelivery {
  import opened SidecarCache

  /** The state a page leaves behind for the next request. */
  function StateAfter(p: Page): SyncState {
    SyncState(p.stamp, p.nextRevision, p.cursor)
  }

  /** The gateway answers the request made in this state, and each further one in the state its last page left, with the
      next of these pages, and says of all but the last that there is more. */
  predicate Serves(server: PullServer, state: SyncState, round: nat, pages: seq<Page>)
    decreases |pages|
  {
    pages != [] ==>
      && server(state, round) == PullPage(pages[0]) && (pages[0].more <==> |pages| > 1)
      && Serves(server, StateAfter(pages[0]), round + 1, pages[1..])
  }

  /** The pages are ordinary ones under one authority, and every memory on them is reference data with an id and a
      revision. */
  predicate Ordinary(pages: seq<Page>, stamp: Stamp) {
    && stamp.epoch != ""
    && forall i | 0 <= i < |pages| :: !pages[i].reset && pages[i].stamp == stamp
         && forall m <- pages[i].memories :: m.reference && m.id != "" && m.revision > 0
  }

  /** The sidecar has recorded nothing for the workspace that the authority contradicts. */
  predicate Compatible(recorded: Stamp, stamp: Stamp) {
    && (recorded.epoch == "" || recorded.epoch == stamp.epoch)
    && (recorded.policy == "" || recorded.policy == stamp.policy)
    && (recorded.device <= 0 || recorded.agent <= 0 || (recorded.device == stamp.device && recorded.agent == stamp.agent))
  }

  /** The cache holds every memory of the pages, at its revision or a newer one, but for those a tombstone of the same
      or a later page names; and no tombstone of a page survives unless a later page brings the memory again. */
  ghost predicate Reflects(cache: map<CacheKey, Cached>, workspace: string, pages: seq<Page>) {
    HoldsMemories(cache, workspace, pages) && DropsTombstones(cache, workspace, pages)
  }

  ghost predicate HoldsMemories(cache: map<CacheKey, Cached>, workspace: string, pages: seq<Page>) {
    forall i, m | 0 <= i < |pages| && m in pages[i].memories && (forall j | i <= j < |pages| :: m.id !in pages[j].tombstones) ::
      CacheKey(workspace, m.id) in cache && cache[CacheKey(workspace, m.id)].revision >= m.revision
  }

  ghost predicate DropsTombstones(cache: map<CacheKey, Cached>, workspace: string, pages: seq<Page>) {
    forall i, ref | 0 <= i < |pages| && ref in pages[i].tombstones && ref != "" && (forall j | i < j < |pages| :: !Names(pages[j], ref)) ::
      CacheKey(workspace, ref) !in cache
  }

  predicate Names(p: Page, ref: string) {
    exists m <- p.memories :: m.id == ref
  }

  lemma PageTaken(l: Local, workspace: string, p: Page, stamp: Stamp)
    requires Ordinary([p], stamp) && Compatible(StateOf(l, workspace).stamp, stamp)
    ensures var step := PullOnce(l, workspace, PullPage(p));
      && step == Pulled(Applied(l, workspace, p), if p.more then Continue else Complete)
      && StateOf(step.local, workspace) == StateAfter(p)
  {
    assert [p][0] == p;
    forall m <- p.memories ensures Acceptable(m) {
    }
    hide PutAll, DropAll;
  }

  /** Taking one more page keeps what the earlier pages brought, but for what the page itself replaces. */
  lemma PageExtends(l: Local, workspace: string, done: seq<Page>, p: Page)
    requires Reflects(l.cache, workspace, done) && !p.reset
    ensures Reflects(Applied(l, workspace, p).cache, workspace, done + [p])
  {
    hide PutAll, DropAll, HoldsMemories, DropsTombstones;
    MemoriesExtend(l, workspace, done, p);
    TombstonesExtend(l, workspace, done, p);
  }

  lemma MemoriesExtend(l: Local, workspace: string, done: seq<Page>, p: Page)
    requires HoldsMemories(l.cache, workspace, done) && !p.reset
    ensures HoldsMemories(Applied(l, workspace, p).cache, workspace, done + [p])
  {
    PutAllHas(l.cache, workspace, p.memories, p.stamp);
    DropAllHas(PutAll(l.cache, workspace, p.memories, p.stamp), workspace, p.tombstones);
    hide PutAll, DropAll;
    var all, cache := done + [p], Applied(l, workspace, p).cache;
    forall i, m | 0 <= i < |all| && m in all[i].memories && (forall j | i <= j < |all| :: m.id !in all[j].tombstones)
      ensures CacheKey(workspace, m.id) in cache && cache[CacheKey(workspace, m.id)].revision >= m.revision
    {
      assert all[|done|] == p && m.id !in p.tombstones;
      if i < |done| {
        assert forall j | i <= j < |done| :: all[j] == done[j];
        assert m in done[i].memories;
      }
    }
  }

  lemma TombstonesExtend(l: Local, workspace: string, done: seq<Page>, p: Page)
    requires DropsTombstones(l.cache, workspace, done) && !p.reset
    ensures DropsTombstones(Applied(l, workspace, p).cache, workspace, done + [p])
  {
    PutAllFrom(l.cache, workspace, p.memories, p.stamp);
    DropAllHas(PutAll(l.cache, workspace, p.memories, p.stamp), workspace, p.tombstones);
    hide PutAll, DropAll;
    var all, cache := done + [p], Applied(l, workspace, p).cache;
    forall i, ref | 0 <= i < |all| && ref in all[i].tombstones && ref != "" && (forall j | i < j < |all| :: !Names(all[j], ref))
      ensures CacheKey(workspace, ref) !in cache
    {
      if i < |done| {
        assert forall j | i < j < |done| :: all[j] == done[j];
        assert ref in done[i].tombstones;
        assert all[|done|] == p && !Names(p, ref);
      }
    }
  }

  /** A page puts only its own memories. */
  lemma {:induction false} PutAllFrom(cache: map<CacheKey, Cached>, workspace: string, memories: seq<Memory>, stamp: Stamp)
    ensures forall k <- PutAll(cache, workspace, memories, stamp) :: k in cache || exists m <- memories :: k == CacheKey(workspace, m.id)
    decreases |memories|
  {
    if memories != [] {
      var n := |memories| - 1;
      PutAllFrom(cache, workspace, memories[..n], stamp);
      assert memories == memories[..n] + [memories[n]];
    }
  }

  lemma {:induction false} PullCollects(l: Local, workspace: string, server: PullServer, round: nat, done: seq<Page>, pages: seq<Page>, stamp: Stamp)
    requires Ordinary(pages, stamp) && Compatible(StateOf(l, workspace).stamp, stamp) && pages != []
    requires Serves(server, StateOf(l, workspace), round, pages) && round + |pages| <= PULL_ROUNDS
    requires Reflects(l.cache, workspace, done)
    ensures var r := Pull(l, workspace, server, round);
      && r.ending == Complete && StateOf(r.local, workspace) == StateAfter(pages[|pages| - 1])
      && Reflects(r.local.cache, workspace, done + pages)
    decreases |pages|
  {
    hide Reflects, PullOnce, Applied, StateOf, Compatible;
    var p := pages[0];
    assert [p][0] == p;
    PageTaken(l, workspace, p, stamp);
    PageExtends(l, workspace, done, p);
    var next := Applied(l, workspace, p);
    assert done + [p] + pages[1..] == done + pages;
    if |pages| > 1 {
      assert forall i | 0 <= i < |pages[1..]| :: pages[1..][i] == pages[i + 1];
      SameAuthority(p, stamp);
      PullCollects(next, workspace, server, round + 1, done + [p], pages[1..], stamp);
    } else {
      assert pages[1..] == [] && done + [p] == done + pages;
    }
  }

  lemma SameAuthority(p: Page, stamp: Stamp)
    requires p.stamp == stamp
    ensures Compatible(StateAfter(p).stamp, stamp)
  {
  }

  /** A pull follows the pages of the gateway to the last one, up to a hundred: it ends complete, remembers the authority,
      the revision and the cursor of the last page, and the cache reflects them all. */
  lemma PullDeliversEveryPage(l: Local, workspace: string, server: PullServer, pages: seq<Page>, stamp: Stamp)
    requires 0 < |pages| <= 100 && Ordinary(pages, stamp) && Compatible(StateOf(l, workspace).stamp, stamp)
    requires Serves(server, StateOf(l, workspace), 0, pages)
    ensures var r, last := Pull(l, workspace, server, 0), pages[|pages| - 1];
      && r.ending == Complete && workspace in r.local.sync && r.local.sync[workspace] == SyncState(stamp, last.nextRevision, last.cursor)
      && Reflects(r.local.cache, workspace, pages)
  {
    hide Pull;
    assert [] + pages == pages;
    PullCollects(l, workspace, server, 0, [], pages, stamp);
  }

  // ---- a change of authority

  /** The page resets the workspace, or comes under another policy or another authorisation than the recorded one. */
  predicate ChangesAuthority(recorded: Stamp, p: Page) {
    || (p.reset && p.stamp.epoch != "")
    || (!p.reset && recorded.policy != "" && p.stamp.policy != recorded.policy)
    || (!p.reset && recorded.device > 0 && recorded.agent > 0 && (p.stamp.device != recorded.device || p.stamp.agent != recorded.agent))
  }

  /** Such a page empties the workspace's cache and takes nothing from the page: the pull starts afresh under the page's
      epoch. Any other page is taken, unless it is refused as a whole. */
  lemma ChangeEmptiesCache(l: Local, workspace: string, p: Page)
    requires ChangesAuthority(StateOf(l, workspace).stamp, p)
    ensures var step := PullOnce(l, workspace, PullPage(p));
      && step.ending == Continue && (forall k <- step.local.cache :: k.workspace != workspace)
      && workspace in step.local.sync && step.local.sync[workspace] == SyncState(Stamp(p.stamp.epoch, "", 0, 0), 0, "")
  {
  }

  /** An ordinary page is refused as a whole, and the pull ends with it, exactly when it names no epoch, or another one
      than the recorded, or carries a memory that is not reference data with an id and a revision. */
  lemma RefusedAsAWhole(l: Local, workspace: string, p: Page)
    requires !p.reset && !ChangesAuthority(StateOf(l, workspace).stamp, p)
    ensures var step, recorded := PullOnce(l, workspace, PullPage(p)), StateOf(l, workspace).stamp;
      && (step.ending == Raised <==>
           || p.stamp.epoch == "" || (recorded.epoch != "" && recorded.epoch != p.stamp.epoch)
           || exists m <- p.memories :: !m.reference || m.id == "" || m.revision <= 0)
      && (step.ending == Raised ==> step.local == l)
      && (step.ending == Continue <==> step.ending != Raised && p.more) && (step.ending == Complete <==> step.ending != Raised && !p.more)
  {
    hide PutAll, DropAll;
  }

  /** A reset that answers a push does exactly what a reset page does in a pull, unless it names no epoch, and then
      nothing; other workspaces keep their cache and their state. */
  lemma ResetsAgree(l: Local, workspace: string, p: Page)
    requires p.reset
    ensures var pushed := Do(l, PushReset(workspace, p.stamp.epoch));
      && pushed == PullOnce(l, workspace, PullPage(p)).local
      && (p.stamp.epoch == "" <==> PullOnce(l, workspace, PullPage(p)).ending == Raised)
      && (forall k: CacheKey | k.workspace != workspace :: (k in pushed.cache <==> k in l.cache) && (k in l.cache ==> pushed.cache[k] == l.cache[k]))
      && (forall w: string | w != workspace :: (w in pushed.sync <==> w in l.sync) && (w in l.sync ==> pushed.sync[w] == l.sync[w]))
  {
  }
}
