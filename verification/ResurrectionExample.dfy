/** A crashed revert whose target is retired before the retry: the retry brings an archived memory back in the ledger
    alone. Two candidates; the second supersedes the memory of the first, its revert crashes after the GBrain commit,
    the first one's confirmation is reverted, and the crashed revert is retried. */
module ResurrectionExample {
  import opened Names
  import opened GBrain
  import opened Ledger
  import opened Lifecycle
  import opened StoreAgreement
  import opened RetryHeals
  import opened RetriesAmongOthers
  import S = StrandingExample

  const CONFIRM := ResolveRequest(S.WHO, 0, RetainBoth, 1, "k1", S.NEWER, false, None)
  const SUPERSEDE := ResolveRequest(S.WHO, 1, Supersession, 1, "k2", S.NEWER, false, Some(0))
  const UNDO := RevertRequest(S.WHO, 1, 1, 2, "k3")
  const RETIRE := RevertRequest(S.WHO, 0, 0, 2, "k4")

  const FIRST := Payload("blue", Some("n"), S.KEYS, None, false, false, false)

  const ATTEMPTS: seq<Attempt> :=
    [Attempt(Submitting(S.WHO, "1", WorkspaceScope, FIRST), 3), Attempt(Working(S.K1, Decrypts), 3),
     Attempt(Submitting(S.WHO, "2", WorkspaceScope, S.NEWER), 3), Attempt(Working(S.K2, Decrypts), 3),
     Attempt(Resolving(CONFIRM), 3), Attempt(Resolving(SUPERSEDE), 3),
     Attempt(Reverting(UNDO), 1), Attempt(Reverting(RETIRE), 3), Attempt(Reverting(UNDO), 3)]

  // ---- the stores after two, four, five, six, seven and eight attempts

  const E1 := S.Received(FIRST).(status := Applied, result := Some(CandidateCreated), revision := Some(1))
  const E2 := S.Received(S.NEWER).(status := Applied, result := Some(CandidateCreated), revision := Some(2))

  const L2 := EMPTY_LEDGER.(events := map[S.K1 := E1], receipts := map[S.K1 := Receipt(1, CandidateCreated, None, 1)],
                            reviews := [Review(S.K1, Open, 1, None)], revision := 1)
  const L4 := L2.(events := map[S.K1 := E1, S.K2 := E2],
                  receipts := map[S.K1 := Receipt(1, CandidateCreated, None, 1), S.K2 := Receipt(2, CandidateCreated, None, 2)],
                  reviews := [Review(S.K1, Open, 1, None), Review(S.K2, Open, 1, None)], revision := 2)

  const FACT0 := Fact("t", "blue", CreateKey(0, "k1"), false, None)
  const FACT1 := Fact("t", "green", CreateKey(1, "k2"), false, None)
  const ROW0 := Row(S.HOME, S.K1, S.KEYS, false, false, Active, None, 3)
  const ROW1 := Row(S.HOME, S.K2, S.KEYS, false, false, Active, None, 4)
  const OP0 := Op(0, "k1", "t", "u", "w", RetainBoth, 1, Some(0), None, None)
  const OP1 := Op(1, "k2", "t", "u", "w", Supersession, 1, Some(1), Some(0), None)
  const OP2 := Op(0, "k4", "t", "u", "w", Revert, 2, Some(0), None, Some(0))
  const E1C := E1.(result := Some(CandidateConfirmed), backendRef := Some(0), revision := Some(3))
  const E2C := E2.(result := Some(CandidateConfirmed), backendRef := Some(1), revision := Some(4))

  const L5 := L4.(events := map[S.K1 := E1C, S.K2 := E2], ops := [OP0], opByKey := map["k1" := 0],
                  reviews := [Review(S.K1, Confirmed, 2, Some(0)), Review(S.K2, Open, 1, None)],
                  rows := map[0 := ROW0], rowByOrigin := map[S.K1 := 0], revision := 3)
  const B5 := Brain([FACT0], map[CreateKey(0, "k1") := 0], map[], {})

  const L6 := L5.(events := map[S.K1 := E1C, S.K2 := E2C], ops := [OP0, OP1], opByKey := map["k1" := 0, "k2" := 1],
                  reviews := [Review(S.K1, Confirmed, 2, Some(0)), Review(S.K2, Confirmed, 2, Some(1))],
                  rows := map[0 := ROW0.(status := Superseded, supersededBy := Some(1), updated := 4), 1 := ROW1],
                  rowByOrigin := map[S.K1 := 0, S.K2 := 1], tombstones := map[0 := Tombstone("t", "u", 4, None)], revision := 4)
  const LINKED := Operation(SupersedeOp, OnFact(0), FactRef(1))
  const UNLINKED := Operation(RestoreOp, OnPair(0, 1), FactRef(0))
  const B6 := Brain([FACT0.(supersededBy := Some(1)), FACT1], map[CreateKey(0, "k1") := 0, CreateKey(1, "k2") := 1],
                    map[SupersedeKey(1, "k2") := LINKED], {})
  const B7 := B6.(facts := [FACT0, FACT1.(expired := true)],
                  operations := map[SupersedeKey(1, "k2") := LINKED, RestoreKey(1, "k3") := UNLINKED])

  const L8 := L6.(ops := [OP0, OP1, OP2], opByKey := map["k1" := 0, "k2" := 1, "k4" := 2],
                  reviews := [Review(S.K1, Open, 3, Some(2)), Review(S.K2, Confirmed, 2, Some(1))],
                  rows := map[0 := ROW0.(status := Archived, supersededBy := Some(1), updated := 5), 1 := ROW1],
                  tombstones := map[0 := Tombstone("t", "u", 5, None)], revision := 5)
  const B8 := B7.(facts := [FACT0.(expired := true), FACT1.(expired := true)],
                  operations := B7.operations[ArchiveKey(0, "k4") := Operation(ArchiveOp, OnFact(0), FactRef(0))])

  lemma FirstTwo()
    ensures Serve(Serve(EMPTY, ATTEMPTS[0].request, 3), ATTEMPTS[1].request, 3) == Store(L2, EMPTY_BRAIN)
  {
    var s1 := Serve(EMPTY, ATTEMPTS[0].request, 3);
    assert s1 == Store(EMPTY_LEDGER.(events := map[S.K1 := S.Received(FIRST)]), EMPTY_BRAIN);
    var s2 := Serve(s1, ATTEMPTS[1].request, 3);
    assert s2.ledger.events == L2.events && s2.ledger.receipts == L2.receipts && s2.ledger.reviews == L2.reviews;
  }

  lemma NextTwo()
    ensures Serve(Serve(Store(L2, EMPTY_BRAIN), ATTEMPTS[2].request, 3), ATTEMPTS[3].request, 3) == Store(L4, EMPTY_BRAIN)
  {
    var s1 := Serve(Store(L2, EMPTY_BRAIN), ATTEMPTS[2].request, 3);
    assert s1 == Store(L2.(events := map[S.K1 := E1, S.K2 := S.Received(S.NEWER)]), EMPTY_BRAIN);
    var s2 := Serve(s1, ATTEMPTS[3].request, 3);
    assert s2.ledger.events == L4.events && s2.ledger.receipts == L4.receipts && s2.ledger.reviews == L4.reviews;
  }

  lemma ConfirmPasses()
    ensures ResolveStop(L4, CONFIRM).None? && ConfirmRefusal(L4, CONFIRM, 0).None?
  {
    assert CandidateProblem(L4, 0, S.WHO, 1).None?;
  }

  lemma ConfirmInGBrain()
    ensures ConfirmBrain(L4, EMPTY_BRAIN, CONFIRM, 3) == Step(B5, Ok(FactRef(0)))
  {
    var step := ConfirmBrain(L4, EMPTY_BRAIN, CONFIRM, 3);
    assert step.brain.facts == B5.facts && step.brain.bindings == B5.bindings;
  }

  lemma ConfirmInLedger()
    ensures CommitConfirm(L4, 0, "k1", RetainBoth, FIRST, 0, None) == L5
  {
    var l := CommitConfirm(L4, 0, "k1", RetainBoth, FIRST, 0, None);
    assert l.events == L5.events && l.rows == L5.rows && l.rowByOrigin == L5.rowByOrigin && l.externals == L5.externals;
    assert l.ops == L5.ops && l.opByKey == L5.opByKey && l.reviews == L5.reviews;
  }

  lemma Confirming()
    ensures Serve(Store(L4, EMPTY_BRAIN), ATTEMPTS[4].request, 3) == Store(L5, B5)
  {
    hide ResolveStop, ConfirmBrain, ConfirmRefusal, CommitConfirm, Resolve;
    ConfirmPasses();
    ConfirmInGBrain();
    ConfirmInLedger();
    ResolveConfirms(Store(L4, EMPTY_BRAIN), CONFIRM, 3);
  }

  lemma SupersedePasses()
    ensures ResolveStop(L5, SUPERSEDE).None? && ConfirmRefusal(L5, SUPERSEDE, 1).None?
  {
    assert CandidateProblem(L5, 1, S.WHO, 1).None?;
    assert 0 in ConflictsFor(L5, SUPERSEDE);
  }

  lemma SupersedeInGBrain()
    ensures ConfirmBrain(L5, B5, SUPERSEDE, 3) == Step(B6, Ok(FactRef(1)))
  {
    var created := Upsert(B5, CreateKey(1, "k2"), "t", "green");
    assert created.brain.facts == [FACT0, FACT1] && created.brain.bindings == B6.bindings;
    SupersedeSucceeds(created.brain, SupersedeKey(1, "k2"), 0, 1);
    var linked := Supersede(created.brain, SupersedeKey(1, "k2"), 0, 1);
    assert linked.brain.facts == B6.facts && linked.brain.operations == B6.operations;
    hide Upsert, Supersede;
  }

  lemma SupersedeInLedger()
    ensures CommitConfirm(L5, 1, "k2", Supersession, S.NEWER, 1, Some(0)) == L6
  {
    var l := CommitConfirm(L5, 1, "k2", Supersession, S.NEWER, 1, Some(0));
    assert l.events == L6.events && l.rows == L6.rows && l.rowByOrigin == L6.rowByOrigin && l.externals == L6.externals;
    assert l.ops == L6.ops && l.opByKey == L6.opByKey && l.reviews == L6.reviews && l.tombstones == L6.tombstones;
  }

  lemma Superseding()
    ensures Serve(Store(L5, B5), ATTEMPTS[5].request, 3) == Store(L6, B6)
  {
    hide ResolveStop, ConfirmBrain, ConfirmRefusal, CommitConfirm, Resolve;
    SupersedePasses();
    SupersedeInGBrain();
    SupersedeInLedger();
    ResolveConfirms(Store(L5, B5), SUPERSEDE, 3);
  }

  lemma UndoPasses()
    ensures RevertStop(L6, UNDO).None?
  {
    assert CandidateProblem(L6, 1, S.WHO, 2).None?;
  }

  lemma RetryPasses()
    ensures RevertStop(L8, UNDO).None? && RevertRefusal(L8, UNDO).None?
  {
    hide RevertRefusal, AlreadyCompensated, CandidateProblem;
    RetryIsAllowed();
    RetryIsNotRefused();
    NotYetCompensated();
  }

  lemma RetryIsAllowed()
    ensures CandidateProblem(L8, 1, S.WHO, 2).None?
  {
  }

  lemma NotYetCompensated()
    ensures !AlreadyCompensated(L8, UNDO.opId)
  {
  }

  lemma RetryIsNotRefused()
    ensures RevertRefusal(L8, UNDO).None?
  {
    hide RevertStop;
  }

  lemma UndoInGBrain()
    ensures RevertBrain(B6, UNDO, OP1) == Step(B7, Ok(FactRef(0))) && RevertBrain(B8, UNDO, OP1) == Step(B8, Ok(FactRef(0)))
  {
    var step := RevertBrain(B6, UNDO, OP1);
    assert step.brain.facts == B7.facts && step.brain.operations == B7.operations;
  }

  lemma CrashingUndo()
    ensures Serve(Store(L6, B6), ATTEMPTS[6].request, 1) == Store(L6, B7)
  {
    UndoPasses();
    UndoInGBrain();
    hide RevertStop, RevertBrain, RevertRefusal, CommitRevert;
  }

  lemma RetirePasses()
    ensures RevertStop(L6, RETIRE).None? && RevertRefusal(L6, RETIRE).None?
  {
    assert CandidateProblem(L6, 0, S.WHO, 2).None?;
  }

  lemma RetireInGBrain()
    ensures RevertBrain(B7, RETIRE, OP0) == Step(B8, Ok(FactRef(0)))
  {
    var step := RevertBrain(B7, RETIRE, OP0);
    assert step.brain.facts == B8.facts && step.brain.operations == B8.operations;
  }

  lemma RetireInLedger()
    ensures CommitRevert(L6, 0, "k4", 0) == L8
  {
    var l := CommitRevert(L6, 0, "k4", 0);
    assert l.rows == L8.rows && l.tombstones == L8.tombstones && l.crystals == L8.crystals;
    assert l.ops == L8.ops && l.opByKey == L8.opByKey && l.reviews == L8.reviews;
  }

  lemma Retiring()
    ensures Serve(Store(L6, B7), ATTEMPTS[7].request, 3) == Store(L8, B8)
  {
    hide RevertStop, RevertBrain, RevertRefusal, CommitRevert, RevertOp;
    RetirePasses();
    RetireInGBrain();
    RetireInLedger();
    RevertCommitsBoth(Store(L6, B7), RETIRE, 3);
  }

  lemma RetriedUndoInLedger()
    ensures var rows := CommitRevert(L8, 1, "k3", 1).rows; 0 in rows && rows[0].status == Active
  {
    RevertedTargetIsActive(L8, 1, "k3", 1);
    hide CommitRevert;
  }

  lemma RetryingUndo()
    ensures var s := Serve(Store(L8, B8), ATTEMPTS[8].request, 3);
      s.brain == B8 && 0 in s.ledger.rows && s.ledger.rows[0].status == Active
  {
    hide RevertStop, RevertBrain, RevertRefusal, CommitRevert, RevertOp;
    RetryPasses();
    UndoInGBrain();
    RetriedUndoInLedger();
    RevertCommitsBoth(Store(L8, B8), UNDO, 3);
  }

  /** Nine attempts from the empty stores, one of them crashed: memory 0 ends active for the ledger and archived for
      GBrain. */
  lemma MemoryComesBack()
    ensures var s := Run(EMPTY, ATTEMPTS);
      && 0 in s.ledger.rows && s.ledger.rows[0].status == Active
      && 0 < |s.brain.facts| && StatusOf(s.brain.facts[0]) == Archived
  {
    FirstTwo();
    NextTwo();
    Confirming();
    Superseding();
    CrashingUndo();
    Retiring();
    RetryingUndo();
    RunOfNine(ATTEMPTS);
    hide Serve, Run;
  }

  function At(s: Store, a: Attempt): Store {
    Serve(s, a.request, a.commits)
  }

  lemma RunOfNine(a: seq<Attempt>)
    requires |a| == 9
    ensures Run(EMPTY, a) == At(At(At(At(At(At(At(At(At(EMPTY, a[0]), a[1]), a[2]), a[3]), a[4]), a[5]), a[6]), a[7]), a[8])
  {
    hide Serve;
    var s4 := At(At(At(At(EMPTY, a[0]), a[1]), a[2]), a[3]);
    RunOfFour(EMPTY, a);
    RunOfFour(s4, a[4..]);
    assert a[4..][4..] == a[8..] && a[8..][1..] == [];
    var s8 := At(At(At(At(s4, a[4]), a[5]), a[6]), a[7]);
    assert Run(s8, a[8..]) == Run(At(s8, a[8]), []);
  }

  lemma RunOfFour(s: Store, a: seq<Attempt>)
    requires |a| >= 4
    ensures Run(s, a) == Run(At(At(At(At(s, a[0]), a[1]), a[2]), a[3]), a[4..])
  {
    hide Serve;
    assert a[1..][1..] == a[2..] && a[2..][1..] == a[3..] && a[3..][1..] == a[4..];
    var s1 := At(s, a[0]);
    var s2 := At(s1, a[1]);
    var s3 := At(s2, a[2]);
    assert Run(s, a) == Run(s1, a[1..]);
    assert Run(s1, a[1..]) == Run(s2, a[2..]);
    assert Run(s2, a[2..]) == Run(s3, a[3..]);
  }

  lemma NotStranding()
    ensures !Strands(Store(L4, EMPTY_BRAIN), ATTEMPTS[4].request) && !Strands(Store(L5, B5), ATTEMPTS[5].request)
  {
    hide ResolveStop;
  }

  lemma EmptyIsConsistent()
    ensures Consistent(EMPTY, {}, {})
  {
  }

  /** The stores agree up to the crash, so the crash and retry lemmas of RetryHeals apply to this run; the retirement in
      between is what takes the target away. */
  lemma RetryPremisesAreMet()
    ensures Consistent(Store(L6, B6), {}, {})
    ensures HalfReverted(Store(L6, B7), UNDO) && Consistent(Store(L6, B7), {0, 1}, {(1, "k3")})
    ensures TargetLive(B7, OP1) && !TargetLive(B8, OP1)
  {
    hide Consistent, Serve, HalfReverted;
    InStepUntilTheCrash();
    CrashedUndo();
  }

  lemma InStepUntilTheCrash()
    ensures Consistent(Store(L5, B5), {}, {}) && Consistent(Store(L6, B6), {}, {})
  {
    hide Consistent, Serve, HalfReverted, Strands;
    EmptyIsConsistent();
    var s1 := Serve(EMPTY, ATTEMPTS[0].request, 3);
    var s3 := Serve(Store(L2, EMPTY_BRAIN), ATTEMPTS[2].request, 3);
    NotStrandingByKind(EMPTY, s1, Store(L2, EMPTY_BRAIN), s3);
    ServeAgreesExactly(EMPTY, ATTEMPTS[0].request);
    ServeAgreesExactly(s1, ATTEMPTS[1].request);
    FirstTwo();
    ServeAgreesExactly(Store(L2, EMPTY_BRAIN), ATTEMPTS[2].request);
    ServeAgreesExactly(s3, ATTEMPTS[3].request);
    NextTwo();
    NotStranding();
    ServeAgreesExactly(Store(L4, EMPTY_BRAIN), ATTEMPTS[4].request);
    Confirming();
    ServeAgreesExactly(Store(L5, B5), ATTEMPTS[5].request);
    Superseding();
  }

  lemma NotStrandingByKind(a: Store, b: Store, c: Store, d: Store)
    ensures !Strands(a, ATTEMPTS[0].request) && !Strands(b, ATTEMPTS[1].request)
    ensures !Strands(c, ATTEMPTS[2].request) && !Strands(d, ATTEMPTS[3].request)
  {
  }

  lemma CrashedUndo()
    requires Consistent(Store(L6, B6), {}, {})
    ensures HalfReverted(Store(L6, B7), UNDO) && Consistent(Store(L6, B7), {0, 1}, {(1, "k3")})
  {
    hide Consistent, HalfReverted, RevertStop, RevertBrain;
    UndoPasses();
    UndoInGBrain();
    assert RevertOp(Store(L6, B6), UNDO, 1) == Outcome(Store(L6, B7), Crashed);
    hide RevertOp;
    CrashedRevert(Store(L6, B6), UNDO, {}, {});
    assert {} + RevertTouches(L6, UNDO) == {0, 1};
    assert {} + {(1, "k3")} == {(1, "k3")};
  }

  /** The run in between is one RevertHealsExactly speaks of, and the retirement is the revert GBrain commits in it. */
  lemma RetirementIsCovered()
    ensures RevertRun(Store(L6, B7), [Reverting(RETIRE)], OP1, {0, 1}, {(1, "k3")})
    ensures EverRetires(Store(L6, B7), [Reverting(RETIRE)], OP1)
  {
    hide RevertStop, RevertBrain, Serve;
    RetirePasses();
    RetireInGBrain();
    assert OnTarget(L6, Reverting(RETIRE), OP1, {0, 1}, {(1, "k3")});
    assert [Reverting(RETIRE)][1..] == [];
  }

  // ---- the supersession itself, crashed instead and then abandoned

  const ARCHIVE := Resolving(ResolveRequest(S.WHO, 1, Archive, 1, "k5", S.NEWER, false, None))

  /** Crashed after its second GBrain commit; the candidate is archived; the retry cannot heal memory 0 any more. */
  lemma SupersessionIsAbandoned()
    ensures Consistent(Store(L5, B5), {}, {}) && SoleCandidates(L5)
    ensures var crashed := Resolve(Store(L5, B5), SUPERSEDE, 2).store;
      var retried := Resolve(After(crashed, [ARCHIVE]), SUPERSEDE, 3).store;
      && ForeignRun(crashed, [ARCHIVE], {0}, {(1, "k2")}) && EverCommits(crashed, [ARCHIVE], 1, "k2")
      && !Agree(retried.ledger, retried.brain, {})
  {
    hide Consistent, Serve, Resolve, ResolveStop, ResolveStrands, Foreign, Commits, HalfSuperseded, Agree, After;
    var crashed := Resolve(Store(L5, B5), SUPERSEDE, 2).store;
    InStepUntilTheCrash();
    SupersedePasses();
    NotStranding();
    CrashedSupersession(Store(L5, B5), SUPERSEDE, {}, {});
    assert {} + {SUPERSEDE.target.value} == {0} && {} + {(SUPERSEDE.review, SUPERSEDE.idem)} == {(1, "k2")};
    CrashKeepsKeys();
    ArchivingAbandons(crashed, SUPERSEDE, "k5", {0}, {(1, "k2")});
    assert [ARCHIVE][1..] == [];
    SupersessionHealsExactly(Store(L5, B5), SUPERSEDE, [ARCHIVE], {}, {});
  }

  lemma CrashKeepsKeys()
    ensures "k5" !in Resolve(Store(L5, B5), SUPERSEDE, 2).store.ledger.opByKey
  {
    hide ResolveStop, ConfirmBrain;
  }
}
