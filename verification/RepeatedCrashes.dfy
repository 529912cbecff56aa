/** A request that crashes several times, with other requests in between. Once the keys it has got to are spent, another
    crash of it changes nothing; so what RetriesAmongOthers, RetryEquals and CreationRetry say of one crash holds of any
    number of crashes in any places. */
module RepeatedCrashes {
  import opened Names
  import opened GBrain
  import opened Ledger
  import opened Lifecycle
  import opened AllRuns
  import opened StoreAgreement
  import opened RetryHeals
  import opened RetriesAmongOthers
  import opened KnownFacts
  import opened Renaming
  import opened Twins
  import opened RetryEquals
  import opened CreationRetry

  /** The complete requests of a run of attempts. */
  function Others(attempts: seq<Attempt>): seq<Request> {
    if attempts == [] then []
    else (if attempts[0].commits == 3 then [attempts[0].request] else []) + Others(attempts[1..])
  }

  /** Every attempt is complete, or one of `own` that crashes after fewer than `below` commits. */
  predicate Interrupts(attempts: seq<Attempt>, own: Request, below: nat) {
    forall a <- attempts :: a.commits == 3 || (a.request == own && a.commits < below)
  }

  // ---- a crash that finds its keys spent

  /** GBrain has on record everything `own` commits there before it could crash `below` commits far. */
  ghost predicate Spent(s: Store, own: Request, below: nat) {
    match own
    case Resolving(q) =>
      && q.action.CreatesFact() && below <= ConfirmCommits(q) && CreateKey(q.review, q.idem) in s.brain.bindings
      && (below == 3 ==> SupersedeKey(q.review, q.idem) in s.brain.operations)
    case Reverting(q) =>
      && q.opId < |s.ledger.ops| && s.ledger.ops[q.opId].action.CreatesFact() && s.ledger.ops[q.opId].ref.Some? && below <= 2
      && RevertKey(q, s.ledger.ops[q.opId]) in s.brain.operations
    case Forgetting(who, ref) => below <= 2 && ForgetKey(ref, who.workspace) in s.brain.operations
    case _ => false
  }

  lemma SpentResolveIsIdle(s: Store, q: ResolveRequest, below: nat, n: nat)
    requires Spent(s, Resolving(q), below) && n < below
    ensures Resolve(s, q, n).store == s
  {
    hide ResolveStop, ConfirmRefusal, CommitConfirm;
  }

  lemma SpentRevertIsIdle(s: Store, q: RevertRequest, below: nat, n: nat)
    requires Spent(s, Reverting(q), below) && n < below
    ensures RevertOp(s, q, n).store == s
  {
    hide RevertStop, RevertBrain, RevertRefusal, CommitRevert, RevertKey;
    SpentRevertDoesNothing(s.brain, q, s.ledger.ops[q.opId]);
  }

  lemma SpentForgetIsIdle(s: Store, who: Principal, ref: FactId, below: nat, n: nat)
    requires Spent(s, Forgetting(who, ref), below) && n < below
    ensures Forget(s, who, ref, n).store == s
  {
    hide CommitForget;
  }

  lemma SpentIsIdle(s: Store, own: Request, below: nat, n: nat)
    requires Spent(s, own, below) && n < below
    ensures Serve(s, own, n) == s
  {
    hide Resolve, RevertOp, Forget, RevertKey;
    match own
    case Resolving(q) => SpentResolveIsIdle(s, q, below, n);
    case Reverting(q) => SpentRevertIsIdle(s, q, below, n);
    case Forgetting(who, ref) => SpentForgetIsIdle(s, who, ref, below, n);
    case _ =>
  }

  /** No request takes a key off the record. */
  lemma SpentStays(s: Store, r: Request, own: Request, below: nat)
    requires Spent(s, own, below)
    ensures Spent(Serve(s, r, 3), own, below)
  {
    hide Serve, RevertKey;
    ServeFrames(s, r, {});
  }

  /** Crashes of a request whose keys are spent can be left out of a run. */
  lemma {:induction false} CrashesVanish(s: Store, attempts: seq<Attempt>, own: Request, below: nat)
    requires Spent(s, own, below) && Interrupts(attempts, own, below)
    ensures Run(s, attempts) == After(s, Others(attempts)) && Spent(Run(s, attempts), own, below)
    decreases |attempts|
  {
    hide Spent, Serve;
    if attempts != [] {
      var a := attempts[0];
      assert a in attempts && forall b <- attempts[1..] :: b in attempts;
      if a.commits == 3 {
        SpentStays(s, a.request, own, below);
        assert Others(attempts)[0] == a.request && Others(attempts)[1..] == Others(attempts[1..]);
      } else {
        SpentIsIdle(s, own, below, a.commits);
        assert Others(attempts) == Others(attempts[1..]);
      }
      CrashesVanish(Serve(s, a.request, a.commits), attempts[1..], own, below);
    }
  }

  // ---- what is half done stays so through further crashes

  lemma HalfSupersededIsSpent(s: Store, q: ResolveRequest)
    requires HalfSuperseded(s, q)
    ensures Spent(s, Resolving(q), 3)
  {
    hide ResolveStop;
  }

  lemma HalfRevertedIsSpent(s: Store, q: RevertRequest)
    requires HalfReverted(s, q)
    ensures Spent(s, Reverting(q), 2)
  {
    hide RevertStop, RevertKey, RevertRecord;
  }

  lemma HalfForgottenIsSpent(s: Store, who: Principal, ref: FactId)
    requires HalfForgotten(s, who, ref)
    ensures Spent(s, Forgetting(who, ref), 2)
  {
  }

  // ---- healing

  /** Before the second commit goes through, crashes of a supersession leave the stores in step: each attempt is a complete
      request on other facts, or one of `q` that crashes before its second commit. */
  ghost predicate EarlyRun(s: Store, attempts: seq<Attempt>, q: ResolveRequest, except: set<FactId>, open: set<Pair>)
    decreases |attempts|
  {
    attempts == []
    || ((if attempts[0].commits == 3 then Foreign(s, attempts[0].request, except, open)
         else attempts[0].request == Resolving(q) && attempts[0].commits <= 1)
        && EarlyRun(Serve(s, attempts[0].request, attempts[0].commits), attempts[1..], q, except, open))
  }

  lemma EarlyCrashAgrees(s: Store, q: ResolveRequest, n: nat, except: set<FactId>, open: set<Pair>)
    requires Consistent(s, except, open) && q.action.CreatesFact() && n <= 1
    ensures Consistent(Resolve(s, q, n).store, except, open)
  {
    hide Consistent, ResolveStop, ConfirmBrain, ConfirmRefusal, CommitConfirm;
    if n == 1 && ResolveStop(s.ledger, q).None? { CrashedCreationAgrees(s, q, except, open); }
  }

  lemma {:induction false} EarlyRunAgrees(s: Store, attempts: seq<Attempt>, q: ResolveRequest, except: set<FactId>, open: set<Pair>)
    requires Consistent(s, except, open) && SoleCandidates(s.ledger) && q.action.CreatesFact() && EarlyRun(s, attempts, q, except, open)
    ensures Consistent(Run(s, attempts), except, open) && SoleCandidates(Run(s, attempts).ledger)
    decreases |attempts|
  {
    hide Consistent, SoleCandidates, Serve, Foreign, Resolve;
    if attempts != [] {
      var a := attempts[0];
      ConsistentStore(s, except, open);
      ServeKeepsSoleCandidates(s, a.request, a.commits);
      if a.commits == 3 {
        ForeignKeepsConsistent(s, a.request, except, open);
      } else {
        EarlyCrashAgrees(s, q, a.commits, except, open);
        ServeOfResolve(s, q, a.commits);
      }
      EarlyRunAgrees(Serve(s, a.request, a.commits), attempts[1..], q, except, open);
    }
  }

  /** A supersession that crashes any number of times, other requests in between: any crashes before its second commit,
      one after it, any crashes from then on, and at last its complete attempt. That attempt completes and heals the
      stores exactly when, after the second commit, nothing committed on the candidate or took the key. */
  lemma OftenCrashedSupersession(s: Store, q: ResolveRequest, early: seq<Attempt>, late: seq<Attempt>, except: set<FactId>, open: set<Pair>)
    requires Consistent(s, except, open) && SoleCandidates(s.ledger) && q.action == Supersession && EarlyRun(s, early, q, except, open)
    requires var t := Run(s, early);
      && ResolveStop(t.ledger, q).None? && !ResolveStrands(t, q) && q.idem !in t.ledger.opByKey
      && q.target.value !in except && (q.review, q.idem) !in open
      && Interrupts(late, Resolving(q), 3)
      && ForeignRun(Resolve(t, q, 2).store, Others(late), except + {q.target.value}, open + {(q.review, q.idem)})
    ensures var crashed := Resolve(Run(s, early), q, 2).store;
      var retried := Resolve(Run(crashed, late), q, 3);
      if EverCommits(crashed, Others(late), q.review, q.idem) then !Agree(retried.store.ledger, retried.store.brain, except)
      else retried.answer.Done? && Consistent(retried.store, except, open)
  {
    hide Consistent, SoleCandidates, HalfSuperseded, ResolveStop, ResolveStrands, ForeignRun, After, EverCommits, Serve, Resolve, Agree, Spent, Run,
      EarlyRun, Interrupts;
    var t := Run(s, early);
    EarlyRunAgrees(s, early, q, except, open);
    CrashedSupersession(t, q, except, open);
    HalfSupersededIsSpent(Resolve(t, q, 2).store, q);
    CrashesVanish(Resolve(t, q, 2).store, late, Resolving(q), 3);
    SupersessionHealsExactly(t, q, Others(late), except, open);
  }

  lemma OftenCrashedRevert(s: Store, q: RevertRequest, late: seq<Attempt>, except: set<FactId>, open: set<Pair>)
    requires Consistent(s, except, open) && SoleCandidates(s.ledger) && RevertStop(s.ledger, q).None? && q.idem !in s.ledger.opByKey
    requires RevertTouches(s.ledger, q) !! except && (q.review, q.idem) !in open
    requires s.ledger.ops[q.opId].ref.Some? && RevertOp(s, q, 1).answer == Crashed && Interrupts(late, Reverting(q), 2)
    requires RevertRun(RevertOp(s, q, 1).store, Others(late), s.ledger.ops[q.opId], except + RevertTouches(s.ledger, q),
                       open + {(q.review, q.idem)})
    ensures var crashed, o := RevertOp(s, q, 1).store, s.ledger.ops[q.opId];
      var retried := RevertOp(Run(crashed, late), q, 3);
      && (retried.answer.Done? <==> !EverCommits(crashed, Others(late), q.review, q.idem))
      && if EverRetires(crashed, Others(late), o) || (EverCommits(crashed, Others(late), q.review, q.idem) && LeftToDo(s.ledger, o))
         then !Agree(retried.store.ledger, retried.store.brain, except)
         else Consistent(retried.store, except, open)
  {
    hide Consistent, SoleCandidates, HalfReverted, RevertStop, RevertRun, After, EverCommits, EverRetires, Serve, RevertOp, Agree, Spent, Run,
      Interrupts, LeftToDo, RevertTouches;
    CrashedRevert(s, q, except, open);
    HalfRevertedIsSpent(RevertOp(s, q, 1).store, q);
    CrashesVanish(RevertOp(s, q, 1).store, late, Reverting(q), 2);
    RevertHealsExactly(s, q, Others(late), except, open);
  }

  lemma OftenCrashedForget(s: Store, who: Principal, ref: FactId, late: seq<Attempt>, except: set<FactId>, open: set<Pair>)
    requires Consistent(s, except, open) && ref !in except && Forget(s, who, ref, 1).answer == Crashed
    requires Interrupts(late, Forgetting(who, ref), 2) && ForeignRun(Forget(s, who, ref, 1).store, Others(late), except + {ref}, open)
    ensures var retried := Forget(Run(Forget(s, who, ref, 1).store, late), who, ref, 3);
      retried.answer == Settled(Archived) && Consistent(retried.store, except, open)
  {
    hide Consistent, HalfForgotten, ForeignRun, After, Serve, Forget, Spent, Run, Interrupts;
    CrashedForgetIsHalf(s, who, ref, except, open);
    HalfForgottenIsSpent(Forget(s, who, ref, 1).store, who, ref);
    CrashesVanish(Forget(s, who, ref, 1).store, late, Forgetting(who, ref), 2);
    ForgetHeals(s, who, ref, Others(late), except, open);
  }

  // ---- the same stores as without any crash

  lemma OftenCrashedRevertEquals(s: Store, q: RevertRequest, late: seq<Attempt>, except: set<FactId>, open: set<Pair>)
    requires Consistent(s, except, open) && AllKnown(s) && RevertStop(s.ledger, q).None? && q.idem !in s.ledger.opByKey
    requires RevertTouches(s.ledger, q) !! except && (q.review, q.idem) !in open
    requires s.ledger.ops[q.opId].ref.Some? && RevertOp(s, q, 1).answer == Crashed && Interrupts(late, Reverting(q), 2)
    requires ApartRun(s, Others(late), RevertGap(s.ledger, q)) && RevertStop(After(s, Others(late)).ledger, q).None?
    ensures RevertOp(Run(RevertOp(s, q, 1).store, late), q, 3).store == RevertOp(After(s, Others(late)), q, 3).store
  {
    hide Consistent, AllKnown, HalfReverted, RevertStop, ApartRun, After, Serve, RevertOp, Spent, Run, Interrupts, RevertGap, RevertTouches;
    CrashedRevert(s, q, except, open);
    HalfRevertedIsSpent(RevertOp(s, q, 1).store, q);
    CrashesVanish(RevertOp(s, q, 1).store, late, Reverting(q), 2);
    RevertRetryEquals(s, q, Others(late), except, open);
  }

  lemma OftenCrashedForgetEquals(s: Store, who: Principal, ref: FactId, late: seq<Attempt>, except: set<FactId>, open: set<Pair>)
    requires Consistent(s, except, open) && AllKnown(s) && ref !in except && Forget(s, who, ref, 1).answer == Crashed
    requires Interrupts(late, Forgetting(who, ref), 2) && ApartRun(s, Others(late), ForgetGap(who, ref))
    ensures Forget(Run(Forget(s, who, ref, 1).store, late), who, ref, 3).store == Forget(After(s, Others(late)), who, ref, 3).store
  {
    hide Consistent, AllKnown, HalfForgotten, ApartRun, After, Serve, Forget, Spent, Run, Interrupts, ForgetGap;
    CrashedForgetIsHalf(s, who, ref, except, open);
    HalfForgottenIsSpent(Forget(s, who, ref, 1).store, who, ref);
    CrashesVanish(Forget(s, who, ref, 1).store, late, Forgetting(who, ref), 2);
    ForgetRetryEquals(s, who, ref, Others(late), except, open);
  }

  /** A confirmation crashed after its first GBrain commit, then requests and further such crashes, then its retry. */
  lemma OftenCrashedCreationEquals(s: Store, q: ResolveRequest, rs: seq<Request>, late: seq<Attempt>)
    requires StoreOk(s) && AllKnown(s) && ResolveStop(s.ledger, q).None? && q.action.CreatesFact()
    requires FirstAttempt(s.brain, q, false) && Resolve(s, q, 1).answer == Crashed
    requires ApartRun(s, rs, CreationGap(|s.brain.facts|, q, false, |After(s, rs).brain.facts|)) && ResolveStop(After(s, rs).ledger, q).None?
    requires var m := Cycle(|s.brain.facts|, |After(s, rs).brain.facts|);
      Interrupts(late, Resolving(q), 2) && Others(late) == NameRequests(m, rs)
    ensures var m := Cycle(|s.brain.facts|, |After(s, rs).brain.facts|);
      RenamedStore(m, Resolve(After(s, rs), q, 3).store, Resolve(Run(Resolve(s, q, 1).store, late), q, 3).store)
  {
    hide StoreOk, AllKnown, ResolveStop, FirstAttempt, ApartRun, After, Serve, Resolve, Spent, Run, Interrupts, NameRequests, RenamedStore, Beside,
      Planted;
    CrashIsBeside(s, q, 1, |s.brain.facts|);
    PlantedIsSpent(s, Resolve(s, q, 1).store, q, ResolvedPayload(s.ledger, q).content);
    CrashesVanish(Resolve(s, q, 1).store, late, Resolving(q), 2);
    CreationRetryEquals(s, q, 1, rs);
  }

  lemma PlantedIsSpent(s: Store, c: Store, q: ResolveRequest, content: string)
    requires c.brain == Planted(s.brain, q, content, false) && q.action.CreatesFact()
    ensures Spent(c, Resolving(q), 2)
  {
  }

  // ---- a supersession crashed after its first commit and, later, after its second

  /** The link joins the gap: the target may now differ, and the second key is the crashed side's alone. */
  lemma WiderApart(l: Ledger, r: Request, n: nat, q: ResolveRequest, end: nat)
    requires Apart(l, r, CreationGap(n, q, false, end))
    ensures Apart(l, r, LinkGap(n, q, end))
  {
    hide Sources;
  }

  /** No fact differs yet, but both keys are reserved. */
  function LinkGap(n: nat, q: ResolveRequest, end: nat): Gap {
    Gap(Cycle(n, end), {}, {CreateKey(q.review, q.idem), SupersedeKey(q.review, q.idem)}, 1)
  }

  lemma {:induction false} WiderApartRun(s: Store, rs: seq<Request>, n: nat, q: ResolveRequest, end: nat)
    requires ApartRun(s, rs, CreationGap(n, q, false, end))
    ensures ApartRun(s, rs, LinkGap(n, q, end))
    decreases |rs|
  {
    hide Apart, Serve, LinkGap, CreationGap;
    if rs != [] {
      WiderApart(s.ledger, rs[0], n, q, end);
      WiderApartRun(Serve(s, rs[0], 3), rs[1..], n, q, end);
    }
  }

  lemma WiderTwin(n: nat, q: ResolveRequest, end: nat, s: Store, c: Store)
    requires Beside(CreationGap(n, q, false, end), s, c)
    requires SupersedeKey(q.review, q.idem) !in s.brain.bindings && SupersedeKey(q.review, q.idem) !in s.brain.operations
    ensures Beside(LinkGap(n, q, end), s, c)
  {
    ExtraKeys(Cycle(n, end), q);
    hide StoreOk, AllKnown, NameLedger, NameKey, BackKey, NameOperation, NamePages, Name, NameFact;
  }

  /** After the first run neither side has the link. */
  lemma NoLinkYet(n: nat, q: ResolveRequest, end: nat, s: Store, c: Store)
    requires Beside(CreationGap(n, q, false, end), s, c) && Beside(LinkGap(n, q, end), s, c)
    ensures SupersedeKey(q.review, q.idem) !in s.brain.operations && SupersedeKey(q.review, q.idem) !in c.brain.operations
    ensures CreateKey(q.review, q.idem) !in c.brain.operations && SupersedeKey(q.review, q.idem) !in c.brain.bindings
  {
    ExtraKeys(Cycle(n, end), q);
    hide AllKnown, NameLedger, FactsTwin, NameKey, BackKey, NameOperation, NamePages, KeyPlaced;
  }

  /** What the second crash adds. */
  function Linked(b: Brain, q: ResolveRequest, n: FactId): Brain
    requires q.target.Some? && q.target.value < |b.facts|
  {
    b.(facts := b.facts[q.target.value := b.facts[q.target.value].(supersededBy := Some(n))],
       operations := b.operations[SupersedeKey(q.review, q.idem) := Operation(SupersedeOp, OnFact(q.target.value), FactRef(n))])
  }

  lemma SecondCrash(c: Store, q: ResolveRequest, n: FactId)
    requires q.action == Supersession && Resolve(c, q, 2).answer == Crashed
    requires CreateKey(q.review, q.idem) in c.brain.bindings && c.brain.bindings[CreateKey(q.review, q.idem)] == n
    requires CreateKey(q.review, q.idem) !in c.brain.operations
    requires SupersedeKey(q.review, q.idem) !in c.brain.operations && SupersedeKey(q.review, q.idem) !in c.brain.bindings
    ensures ResolveStop(c.ledger, q).None? && q.target.Some? && q.target.value in c.ledger.rows && q.target.value != n
    ensures q.target.value < |c.brain.facts| && n < |c.brain.facts| && c.brain.facts[q.target.value].Live()
    ensures c.brain.facts[q.target.value].source == c.brain.facts[n].source
    ensures Resolve(c, q, 2).store == c.(brain := Linked(c.brain, q, n))
  {
    hide ResolveStop, CommitConfirm, ConfirmRefusal;
  }

  lemma LinkedIsBeside(n: nat, q: ResolveRequest, end: nat, s: Store, c: Store, c': Store)
    requires Beside(LinkGap(n, q, end), s, c) && StoreOk(c') && q.target.Some? && q.target.value < n && n <= end
    requires q.target.value in c.ledger.rows && q.target.value < |c.brain.facts| && c' == c.(brain := Linked(c.brain, q, n))
    ensures Beside(CreationGap(n, q, true, end), s, c')
  {
    hide StoreOk, AllKnown, NameLedger, NameRows, Twin, Name, Linked;
    var m, t := Cycle(n, end), q.target.value;
    LowName(m, t, n);
    NamedTables(m, s.ledger);
    RowIn(m, s.ledger.rows, t);
    LinkedTwin(n, q, end, s.brain, c.brain);
    assert RefSet(q.target) == {t};
  }

  lemma LinkedTwin(n: nat, q: ResolveRequest, end: nat, b: Brain, b': Brain)
    requires Twin(LinkGap(n, q, end), b, b') && q.target.Some? && q.target.value < n && n <= end && q.target.value < |b'.facts|
    ensures Twin(CreationGap(n, q, true, end), b, Linked(b', q, n))
  {
    hide FactsTwin, BindingsTwin, OperationsTwin, NamePages;
    LinkedFacts(n, q, end, b, b');
    LinkedKeys(n, q, end, b, b');
  }

  lemma LinkedFacts(n: nat, q: ResolveRequest, end: nat, b: Brain, b': Brain)
    requires FactsTwin(LinkGap(n, q, end), b, b') && q.target.Some? && q.target.value < n && n <= end && q.target.value < |b'.facts|
    ensures FactsTwin(CreationGap(n, q, true, end), b, Linked(b', q, n))
  {
    var m, t := Cycle(n, end), q.target.value;
    LowName(m, t, n);
    NamesStayApart(m, t);
    assert t in RefSet(q.target);
    hide Name, NameFact;
  }

  lemma LinkedKeys(n: nat, q: ResolveRequest, end: nat, b: Brain, b': Brain)
    requires BindingsTwin(LinkGap(n, q, end), b, b') && OperationsTwin(LinkGap(n, q, end), b, b')
    requires q.target.Some? && q.target.value < |b'.facts|
    ensures BindingsTwin(CreationGap(n, q, true, end), b, Linked(b', q, n)) && OperationsTwin(CreationGap(n, q, true, end), b, Linked(b', q, n))
  {
    hide NameKey, BackKey, NameOperation, Name;
    ExtraKeys(Cycle(n, end), q);
    forall k <- b.operations ensures NameKey(Cycle(n, end), k) != SupersedeKey(q.review, q.idem) { KeysNamed(Cycle(n, end), k); }
  }

  lemma LinkedCarries(n: nat, q: ResolveRequest, end: nat, s: Store, c: Store, c': Store, once: Store, content: string)
    requires Beside(LinkGap(n, q, end), s, c) && Carries(n, s, once, q, content, false) && n <= |s.brain.facts| && n <= end
    requires (forall k <- once.brain.bindings :: k in c.brain.bindings && c.brain.bindings[k] == once.brain.bindings[k]) && SameTexts(once.brain, c.brain)
    requires q.target.Some? && q.target.value < n && q.target.value < |c.brain.facts| && c.brain.facts[q.target.value].Live()
    requires c.brain.facts[q.target.value].source == q.who.tenant && c' == c.(brain := Linked(c.brain, q, n))
    ensures Carries(n, s, c', q, content, true)
  {
    hide StoreOk, AllKnown, NameLedger, BindingsTwin, OperationsTwin, NamePages;
    LowName(Cycle(n, end), q.target.value, n);
  }

  /** A supersession crashed after its first commit; a run; crashed after its second; another run; then its retry. Each run
      may hold further crashes of it that get no further than the last. The stores end as if it had never crashed, up to
      the ids of the facts created in between. */
  lemma OftenCrashedSupersessionEquals(s: Store, q: ResolveRequest, first: seq<Request>, second: seq<Request>, early: seq<Attempt>,
                                       late: seq<Attempt>)
    requires StoreOk(s) && AllKnown(s) && ResolveStop(s.ledger, q).None? && q.action == Supersession && FirstAttempt(s.brain, q, true)
    requires var n, end := |s.brain.facts|, |After(After(s, first), second).brain.facts|;
      && Interrupts(early, Resolving(q), 2) && Others(early) == NameRequests(Cycle(n, end), first)
      && Interrupts(late, Resolving(q), 3) && Others(late) == NameRequests(Cycle(n, end), second)
      && ApartRun(s, first, CreationGap(n, q, false, end)) && ApartRun(After(s, first), second, CreationGap(n, q, true, end))
    requires Resolve(s, q, 1).answer == Crashed && Resolve(Run(Resolve(s, q, 1).store, early), q, 2).answer == Crashed
    requires ResolveStop(After(After(s, first), second).ledger, q).None?
    ensures var m := Cycle(|s.brain.facts|, |After(After(s, first), second).brain.facts|);
      var crashedTwice := Resolve(Run(Resolve(s, q, 1).store, early), q, 2).store;
      RenamedStore(m, Resolve(After(After(s, first), second), q, 3).store, Resolve(Run(crashedTwice, late), q, 3).store)
  {
    hide StoreOk, AllKnown, ResolveStop, FirstAttempt, ApartRun, After, Serve, Resolve, Spent, Run, Interrupts, NameRequests, RenamedStore, Beside,
      Planted, Carries, Others, CreationGap, LinkGap;
    var n, end, content := |s.brain.facts|, |After(After(s, first), second).brain.facts|, ResolvedPayload(s.ledger, q).content;
    var once := Resolve(s, q, 1).store;
    RunGrows(s, first);
    FirstRunKnown(s, first);
    RunGrows(After(s, first), second);
    FirstOfBoth(s.brain, q);
    CrashIsBeside(s, q, 1, end);
    TargetIsKnown(s, q);
    PlantedIsSpent(s, once, q, content);
    CrashesVanish(once, early, Resolving(q), 2);
    PlantedCarries(s, once, q, content, false);
    FirstRun(s, once, q, n, end, first);
    var middle, middle' := After(s, first), After(once, NameRequests(Cycle(n, end), first));
    var twice := Resolve(middle', q, 2).store;
    SecondStage(s, once, middle, middle', q, n, end, content, first);
    CrashesVanish(twice, late, Resolving(q), 3);
    CarriedRetryEquals(n, middle, twice, q, content, true, second);
  }

  lemma FirstOfBoth(b: Brain, q: ResolveRequest)
    requires FirstAttempt(b, q, true)
    ensures FirstAttempt(b, q, false)
  {
  }

  lemma {:induction false} FirstRunKnown(s: Store, rs: seq<Request>)
    requires AllKnown(s)
    ensures AllKnown(After(s, rs))
    decreases |rs|
  {
    hide AllKnown, Serve;
    if rs != [] {
      ServeKnown(s, rs[0], 3);
      FirstRunKnown(Serve(s, rs[0], 3), rs[1..]);
    }
  }

  /** Through the first run, with one key in the gap and with both. */
  lemma FirstRun(s: Store, once: Store, q: ResolveRequest, n: nat, end: nat, first: seq<Request>)
    requires Beside(CreationGap(n, q, false, end), s, once) && n == |s.brain.facts| && FirstAttempt(s.brain, q, true)
    requires ApartRun(s, first, CreationGap(n, q, false, end)) && |After(s, first).brain.facts| <= end && n <= end
    ensures var middle, middle' := After(s, first), After(once, NameRequests(Cycle(n, end), first));
      && Beside(CreationGap(n, q, false, end), middle, middle') && Beside(LinkGap(n, q, end), middle, middle')
      && Framed(s, middle, {}) && Framed(once, middle', {}) && SameTexts(once.brain, middle'.brain)
  {
    hide Beside, ApartRun, After, NameRequests, Framed, SameTexts;
    WiderTwin(n, q, end, s, once);
    WiderApartRun(s, first, n, q, end);
    RunBeside(CreationGap(n, q, false, end), s, once, first, end);
    RunBeside(LinkGap(n, q, end), s, once, first, end);
    RunTexts(once, NameRequests(Cycle(n, end), first));
    assert NameSet(Cycle(n, end), {}) == {};
  }

  /** The second crash, after the first run: beside it, and carrying fact and link. */
  lemma SecondStage(s: Store, once: Store, middle: Store, middle': Store, q: ResolveRequest, n: nat, end: nat, content: string, first: seq<Request>)
    requires Beside(CreationGap(n, q, false, end), middle, middle') && Beside(LinkGap(n, q, end), middle, middle')
    requires Framed(s, middle, {}) && Framed(once, middle', {}) && SameTexts(once.brain, middle'.brain)
    requires Carries(n, s, once, q, content, false) && n <= |middle.brain.facts| && n <= end
    requires q.action == Supersession && q.target.Some? && q.target.value < n && Resolve(middle', q, 2).answer == Crashed
    requires ResolveStop(s.ledger, q).None? && content == ResolvedPayload(s.ledger, q).content
    ensures var twice := Resolve(middle', q, 2).store;
      && Beside(CreationGap(n, q, true, end), middle, twice) && Carries(n, middle, twice, q, content, true)
      && Spent(twice, Resolving(q), 3)
      && ResolveStop(middle.ledger, q).None? && content == ResolvedPayload(middle.ledger, q).content
  {
    hide Beside, ResolveStop, Resolve, Twin, NameLedger, NameResolve, StoreOk, AllKnown, LinkGap, CreationGap, Linked, Spent;
    var m, twice := Cycle(n, end), Resolve(middle', q, 2).store;
    NoLinkYet(n, q, end, middle, middle');
    KeptBinding(n, s, once, middle', q, content);
    SecondCrash(middle', q, n);
    BesideKnown(LinkGap(n, q, end), middle, middle');
    ResolveKeepsStore(middle', q, 2);
    LinkedIsBeside(n, q, end, middle, middle', twice);
    LinkedCarries(n, q, end, middle, middle', twice, once, content);
    LinkedIsSpent(middle', twice, q, n);
    GuardsBeside(n, q, end, middle, middle');
    SameContent(s, middle, q, {});
  }

  lemma KeptBinding(n: nat, s: Store, once: Store, later: Store, q: ResolveRequest, content: string)
    requires Carries(n, s, once, q, content, false) && Framed(once, later, {}) && SameTexts(once.brain, later.brain)
    ensures CreateKey(q.review, q.idem) in later.brain.bindings && later.brain.bindings[CreateKey(q.review, q.idem)] == n
    ensures n < |later.brain.facts| && later.brain.facts[n].source == q.who.tenant
    ensures forall k <- once.brain.bindings :: k in later.brain.bindings && later.brain.bindings[k] == once.brain.bindings[k]
  {
    hide LogGrows, SameEvent;
  }

  lemma LinkedIsSpent(c: Store, c': Store, q: ResolveRequest, n: nat)
    requires q.action == Supersession && q.target.Some? && q.target.value < |c.brain.facts| && c' == c.(brain := Linked(c.brain, q, n))
    requires CreateKey(q.review, q.idem) in c.brain.bindings
    ensures Spent(c', Resolving(q), 3)
  {
  }

  lemma GuardsBeside(n: nat, q: ResolveRequest, end: nat, s: Store, c: Store)
    requires Beside(LinkGap(n, q, end), s, c) && q.target.Some? && q.target.value < n && n <= end && ResolveStop(c.ledger, q).None?
    ensures ResolveStop(s.ledger, q).None?
  {
    hide StoreOk, AllKnown, Twin, ResolveStop, NameLedger, NameResolve;
    NamedTarget(Cycle(n, end), q);
    ResolveStopNamed(Cycle(n, end), s.ledger, q);
  }
}
