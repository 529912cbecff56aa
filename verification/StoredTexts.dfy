/** Which texts GBrain ends up holding. Over every run, every fact is the text of an explicit event or the text a
    requester chose in a resolve of the run, and no text the scanner called sensitive is ever stored. */
module StoredTexts {
  import opened Names
  import opened GBrain
  import opened Ledger
  import opened Lifecycle
  import opened AllRuns
  import opened LedgerCommits
  import opened CreationRetry

  /** The text a resolve decides on: the edited one where the request edits, else the captured one. */
  function Chosen(q: ResolveRequest, captured: Payload): Payload {
    if q.action == ConfirmEdit then q.edited else captured
  }

  /** Where a text of an event is filed: under the namespace it names, or under the device that captured the event. */
  function HomeOf(origin: EventKey, e: Event, text: Payload): ScopeBinding {
    ScopeBinding(e.tenant, e.user, e.workspace, e.scope, if text.ns.Some? then text.ns.value else "device:" + origin.device)
  }

  /** A resolve may have this text stored: not sensitive, and approved when it reads like an instruction. */
  predicate Storable(q: ResolveRequest, text: Payload) {
    !text.sensitive && (text.instruction ==> q.approved)
  }

  /** The worker may store this text without a review. */
  predicate StoredUnreviewed(text: Payload) {
    text.userExplicit && !text.instruction
  }

  // ---- what one request adds to GBrain

  /** The fact a request adds, from the request and the tables it reads. */
  ghost predicate Plants(l: Ledger, r: Request, fact: Fact) {
    match r
    case Working(k, luck) =>
      && luck == Decrypts && Due(l, k) && StoredUnreviewed(l.events[k].payload) && !RecordKnown(l, l.events[k])
      && fact == Fact(l.events[k].tenant, l.events[k].payload.content, WorkerKey(k), false, None)
    case Resolving(q) =>
      && q.review < |l.reviews| && l.reviews[q.review].origin in l.events
      && var text := Chosen(q, l.events[l.reviews[q.review].origin].payload);
      && Storable(q, text) && fact.content == text.content && fact.session == CreateKey(q.review, q.idem)
      && fact.source == q.who.tenant == l.events[l.reviews[q.review].origin].tenant
      && q.action in {Confirm, ConfirmEdit, RetainBoth, Supersession}
    case _ => false
  }

  /** A request adds at most one fact to GBrain. */
  ghost predicate PlantsAtMostOne(s: Store, r: Request, b': Brain) {
    |b'.facts| == |s.brain.facts| || (|b'.facts| == |s.brain.facts| + 1 && Plants(s.ledger, r, b'.facts[|s.brain.facts|]))
  }

  lemma ConfirmPlants(l: Ledger, b: Brain, q: ResolveRequest, n: nat)
    requires q.review < |l.reviews| && l.reviews[q.review].origin in l.events && n > 0
    ensures var b', text := ConfirmBrain(l, b, q, n).brain, Chosen(q, l.events[l.reviews[q.review].origin].payload);
      || |b'.facts| == |b.facts|
      || (|b'.facts| == |b.facts| + 1 && var fact := b'.facts[|b.facts|];
          fact.content == text.content && fact.source == q.who.tenant && fact.session == CreateKey(q.review, q.idem))
  {
  }

  lemma PassedIsStorable(l: Ledger, q: ResolveRequest)
    requires ResolveStop(l, q).None?
    ensures q.review < |l.reviews| && l.reviews[q.review].origin in l.events
    ensures var e := l.events[l.reviews[q.review].origin]; e.tenant == q.who.tenant && Storable(q, Chosen(q, e.payload))
  {
    hide ConflictsFor, ExistingOp;
  }

  lemma ResolvePlants(s: Store, q: ResolveRequest, n: nat)
    ensures PlantsAtMostOne(s, Resolving(q), Resolve(s, q, n).store.brain)
  {
    hide ConfirmRefusal, CommitConfirm, CommitClose, ResolveStop, ConfirmBrain, Storable, Chosen;
    if ResolveStop(s.ledger, q).None? && n > 0 {
      PassedIsStorable(s.ledger, q);
      ConfirmPlants(s.ledger, s.brain, q, n);
    }
  }

  lemma RevertPlants(s: Store, q: RevertRequest, n: nat)
    ensures PlantsAtMostOne(s, Reverting(q), RevertOp(s, q, n).store.brain)
  {
    hide RevertRefusal, CommitRevert, RevertStop, Plants;
  }

  lemma WorkerPlants(s: Store, key: EventKey, luck: Luck, n: nat)
    requires Due(s.ledger, key)
    ensures PlantsAtMostOne(s, Working(key, luck), WorkerPass(s, key, luck, n).store.brain)
  {
    hide CommitApplied, CommitReview, CommitDuplicate, CommitRetry, CommitDeadLetter;
  }

  lemma ServePlants(s: Store, r: Request, n: nat)
    ensures PlantsAtMostOne(s, r, Serve(s, r, n).brain)
  {
    hide Plants, Resolve, RevertOp, WorkerPass, CommitForget, CommitRebuild, CommitSubmit, Sources;
    match r
    case Resolving(q) => ResolvePlants(s, q, n);
    case Reverting(q) => RevertPlants(s, q, n);
    case Working(key, luck) => if Due(s.ledger, key) { WorkerPlants(s, key, luck, n); }
    case _ =>
  }

  // ---- submissions never change

  /** Events keep what was submitted and by whom; candidates keep the event they came from. */
  ghost predicate KeepsSubmissions(l: Ledger, l': Ledger) {
    && (forall k <- l.events ::
      && k in l'.events && l'.events[k].payload == l.events[k].payload && l'.events[k].scope == l.events[k].scope
      && l'.events[k].tenant == l.events[k].tenant && l'.events[k].user == l.events[k].user
      && l'.events[k].workspace == l.events[k].workspace && l'.events[k].agent == l.events[k].agent)
    && |l.reviews| <= |l'.reviews| && forall v | 0 <= v < |l.reviews| :: l'.reviews[v].origin == l.reviews[v].origin
  }

  /** One event changes, or is new, and candidates may be added. */
  lemma OneEventKeepsSubmissions(l: Ledger, l': Ledger, key: EventKey)
    requires l'.reviews == l.reviews || exists c :: l'.reviews == l.reviews + [c]
    requires key in l'.events && l'.events == l.events[key := l'.events[key]]
    requires key in l.events ==> l'.events[key] == l.events[key].(status := l'.events[key].status, result := l'.events[key].result,
      backendRef := l'.events[key].backendRef, revision := l'.events[key].revision, retries := l'.events[key].retries)
    ensures KeepsSubmissions(l, l')
  {
  }

  lemma EventCommitKeepsSubmissions(l: Ledger, c: Commit)
    requires Ready(l, c) && (c.Applying? || c.Reviewing? || c.Deduplicating? || c.Postponing? || c.Abandoning? || c.Submitted?)
    ensures KeepsSubmissions(l, After(l, c))
  {
    hide MarkStale, RegisterExternal, PutReceipt, KeepsSubmissions;
    OneEventKeepsSubmissions(l, After(l, c), c.key);
  }

  lemma ReviewCommitKeepsSubmissions(l: Ledger, c: Commit)
    requires Ready(l, c) && (c.Confirming? || c.Closing? || c.Undoing?)
    ensures KeepsSubmissions(l, After(l, c))
  {
    hide ConfirmedRows, ConfirmedTombstones, Redirected, MarkStale, RevertedRows, RevertedTombstones, RevertedCrystals, BindingOf;
  }

  lemma CommitKeepsSubmissions(l: Ledger, c: Commit)
    requires Ready(l, c)
    ensures KeepsSubmissions(l, After(l, c))
  {
    hide Ready, CommitConfirm, CommitClose, CommitRevert, CommitApplied, CommitReview, CommitDuplicate, CommitRetry, CommitDeadLetter, PutTombstone,
      Sources, MarkStale;
    if c.Confirming? || c.Closing? || c.Undoing? {
      ReviewCommitKeepsSubmissions(l, c);
    } else if !(c.Nothing? || c.Retiring? || c.Rebuilt?) {
      EventCommitKeepsSubmissions(l, c);
    }
  }

  lemma ServeKeepsSubmissions(s: Store, r: Request, n: nat)
    requires StoreOk(s)
    ensures KeepsSubmissions(s.ledger, Serve(s, r, n).ledger)
  {
    hide Serve, Ready, After, KeepsSubmissions, StoreOk;
    var c := ServeCommits(s, r, n);
    CommitKeepsSubmissions(s.ledger, c);
  }

  lemma {:induction false} RunKeepsSubmissions(s: Store, attempts: seq<Attempt>)
    requires StoreOk(s)
    ensures KeepsSubmissions(s.ledger, Run(s, attempts).ledger)
    decreases |attempts|
  {
    hide StoreOk, Serve;
    if attempts != [] {
      ServeKeepsStore(s, attempts[0].request, attempts[0].commits);
      ServeKeepsSubmissions(s, attempts[0].request, attempts[0].commits);
      RunKeepsSubmissions(Serve(s, attempts[0].request, attempts[0].commits), attempts[1..]);
    }
  }

  // ---- every run

  /** A resolve of the run chose this text for the candidate. */
  ghost predicate ChosenInRun(l: Ledger, v: nat, idem: string, content: string, attempts: seq<Attempt>)
    requires v < |l.reviews| && l.reviews[v].origin in l.events
  {
    exists i | 0 <= i < |attempts| :: ChosenBy(l, v, idem, content, attempts[i].request)
  }

  predicate ChosenBy(l: Ledger, v: nat, idem: string, content: string, r: Request)
    requires v < |l.reviews| && l.reviews[v].origin in l.events
  {
    && r.Resolving? && r.resolve.review == v && r.resolve.idem == idem
    && r.resolve.action in {Confirm, ConfirmEdit, RetainBoth, Supersession}
    && var text := Chosen(r.resolve, l.events[l.reviews[v].origin].payload);
    text.content == content && Storable(r.resolve, text)
  }

  /** Where the text of a fact came from. */
  ghost predicate TextSent(l: Ledger, fact: Fact, attempts: seq<Attempt>) {
    match fact.session
    case WorkerKey(k) =>
      && k in l.events && fact.source == l.events[k].tenant && fact.content == l.events[k].payload.content
      && StoredUnreviewed(l.events[k].payload) && !l.events[k].payload.sensitive
    case CreateKey(v, idem) =>
      && v < |l.reviews| && l.reviews[v].origin in l.events && fact.source == l.events[l.reviews[v].origin].tenant
      && ChosenInRun(l, v, idem, fact.content, attempts)
    case _ => false
  }

  ghost predicate TextsSent(s: Store, attempts: seq<Attempt>) {
    && (forall f | 0 <= f < |s.brain.facts| :: TextSent(s.ledger, s.brain.facts[f], attempts))
    && (forall k <- s.ledger.events :: !s.ledger.events[k].payload.sensitive)
  }

  lemma TextStaysSent(l: Ledger, l': Ledger, fact: Fact, fact': Fact, attempts: seq<Attempt>, more: seq<Attempt>)
    requires TextSent(l, fact, attempts) && KeepsSubmissions(l, l')
    requires fact'.content == fact.content && fact'.source == fact.source && fact'.session == fact.session
    ensures TextSent(l', fact', attempts + more)
  {
    if fact.session.CreateKey? {
      var v, idem := fact.session.review, fact.session.idem;
      var i :| 0 <= i < |attempts| && ChosenBy(l, v, idem, fact.content, attempts[i].request);
      assert (attempts + more)[i] == attempts[i] && ChosenBy(l', v, idem, fact.content, (attempts + more)[i].request);
    }
  }

  lemma PlantedIsSent(s: Store, r: Request, n: nat, fact: Fact, attempts: seq<Attempt>)
    requires StoreOk(s) && KeepsSubmissions(s.ledger, Serve(s, r, n).ledger)
    requires Plants(s.ledger, r, fact) && forall k <- s.ledger.events :: !s.ledger.events[k].payload.sensitive
    ensures TextSent(Serve(s, r, n).ledger, fact, attempts + [Attempt(r, n)])
  {
    hide Serve, StoreOk;
    if r.Resolving? {
      var l', i := Serve(s, r, n).ledger, |attempts|;
      assert (attempts + [Attempt(r, n)])[i].request == r && ChosenBy(l', r.resolve.review, r.resolve.idem, fact.content, r);
    }
  }

  lemma CommitEvents(l: Ledger, c: Commit)
    requires Ready(l, c)
    ensures After(l, c).events.Keys == if c.Submitted? then l.events.Keys + {c.key} else l.events.Keys
    ensures c.Submitted? ==> !After(l, c).events[c.key].payload.sensitive
  {
    hide ConfirmedRows, ConfirmedTombstones, Redirected, MarkStale, RegisterExternal, RevertedRows, RevertedTombstones, RevertedCrystals,
      PutTombstone, PutReceipt, Sources, BindingOf;
  }

  lemma ServeStaysClean(s: Store, r: Request, n: nat)
    requires StoreOk(s) && forall k <- s.ledger.events :: !s.ledger.events[k].payload.sensitive
    ensures forall k <- Serve(s, r, n).ledger.events :: !Serve(s, r, n).ledger.events[k].payload.sensitive
  {
    hide StoreOk, Serve, Ready, After;
    var c := ServeCommits(s, r, n);
    CommitEvents(s.ledger, c);
    CommitKeepsSubmissions(s.ledger, c);
  }

  lemma ServeTextsSent(s: Store, r: Request, n: nat, attempts: seq<Attempt>)
    requires StoreOk(s) && TextsSent(s, attempts)
    ensures TextsSent(Serve(s, r, n), attempts + [Attempt(r, n)])
  {
    hide StoreOk, Serve, KeepsSubmissions, Plants, TextSent;
    var s', done := Serve(s, r, n), attempts + [Attempt(r, n)];
    ServeKeepsSubmissions(s, r, n);
    ServeTexts(s, r, n);
    ServePlants(s, r, n);
    ServeStaysClean(s, r, n);
    forall f | 0 <= f < |s'.brain.facts| ensures TextSent(s'.ledger, s'.brain.facts[f], done) {
      if f < |s.brain.facts| {
        TextStaysSent(s.ledger, s'.ledger, s.brain.facts[f], s'.brain.facts[f], attempts, [Attempt(r, n)]);
      } else {
        PlantedIsSent(s, r, n, s'.brain.facts[f], attempts);
      }
    }
  }

  lemma {:induction false} RunTextsSent(s: Store, attempts: seq<Attempt>, more: seq<Attempt>)
    requires StoreOk(s) && TextsSent(s, attempts)
    ensures TextsSent(Run(s, more), attempts + more)
    decreases |more|
  {
    hide StoreOk, Serve, TextsSent;
    if more == [] {
      assert attempts + more == attempts;
    } else {
      ServeKeepsStore(s, more[0].request, more[0].commits);
      ServeTextsSent(s, more[0].request, more[0].commits, attempts);
      RunTextsSent(Serve(s, more[0].request, more[0].commits), attempts + [more[0]], more[1..]);
      assert attempts + [more[0]] + more[1..] == attempts + more;
    }
  }

  /** Over every run, crashes and retries included, a fact the worker made holds the text of its explicit event, and a
      fact a confirmation made holds the text that some resolve of the run chose for that candidate under that key. */
  lemma EveryTextWasSent(attempts: seq<Attempt>, f: FactId)
    requires f < |Run(EMPTY, attempts).brain.facts|
    ensures var s := Run(EMPTY, attempts); TextSent(s.ledger, s.brain.facts[f], attempts)
  {
    hide StoreOk, TextSent;
    assert StoreOk(EMPTY) by { EmptyIsOk(); }
    RunTextsSent(EMPTY, [], attempts);
    assert [] + attempts == attempts;
  }

  lemma EmptyIsOk()
    ensures StoreOk(EMPTY) && Run(EMPTY, []) == EMPTY
  {
  }
}
