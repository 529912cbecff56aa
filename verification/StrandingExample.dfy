/** The exception in the agreement theorem is real: a short run of complete requests that ends with the stores
    telling different stories. A candidate is confirmed, reverted, and then used to supersede an older memory; the
    ledger allows one row per source event, so it rolls back what GBrain has already committed. */
module StrandingExample {
  import opened Names
  import opened GBrain
  import opened Ledger
  import opened Lifecycle
  import opened StoreAgreement

  const WHO := Principal("t", "u", "w", "d", "a")
  const KEYS := SemanticKeys(Some("e"), Some("a"), None)
  const OLDER := Payload("blue", Some("n"), KEYS, None, true, false, false)
  const NEWER := Payload("green", Some("n"), KEYS, None, false, false, false)
  const K1 := EventKey("d", "1")
  const K2 := EventKey("d", "2")
  const HOME := ScopeBinding("t", "u", "w", WorkspaceScope, "n")

  function Received(payload: Payload): Event {
    Event("t", "u", "a", "w", WorkspaceScope, payload, Pending, None, None, None, 0)
  }

  const CONFIRM := ResolveRequest(WHO, 0, RetainBoth, 1, "k1", NEWER, false, None)
  const UNDO := RevertRequest(WHO, 0, 0, 2, "k2")
  const SUPERSEDE := ResolveRequest(WHO, 0, Supersession, 3, "k3", NEWER, false, Some(0))

  const REQUESTS: seq<Request> :=
    [Submitting(WHO, "1", WorkspaceScope, OLDER), Working(K1, Decrypts),
     Submitting(WHO, "2", WorkspaceScope, NEWER), Working(K2, Decrypts),
     Resolving(CONFIRM), Reverting(UNDO), Resolving(SUPERSEDE)]

  // ---- the ledger and GBrain after two, four, five and six requests

  const E1 := Received(OLDER).(status := Applied, result := Some(CandidateConfirmed), backendRef := Some(0), revision := Some(1))
  const ROW0 := Row(HOME, K1, KEYS, false, false, Active, None, 1)
  const FACT0 := Fact("t", "blue", WorkerKey(K1), false, None)

  const L2 := EMPTY_LEDGER.(events := map[K1 := E1], receipts := map[K1 := Receipt(1, CandidateConfirmed, Some(0), 1)],
                            rows := map[0 := ROW0], rowByOrigin := map[K1 := 0], revision := 1)
  const B2 := Brain([FACT0], map[WorkerKey(K1) := 0], map[], {})

  const E2 := Received(NEWER).(status := Applied, result := Some(CandidateCreated), revision := Some(2))
  const L4 := L2.(events := map[K1 := E1, K2 := E2],
                  receipts := map[K1 := Receipt(1, CandidateConfirmed, Some(0), 1), K2 := Receipt(2, CandidateCreated, None, 2)],
                  reviews := [Review(K2, Open, 1, None)], revision := 2)

  lemma FirstTwo()
    ensures Serve(Serve(EMPTY, REQUESTS[0], 3), REQUESTS[1], 3) == Store(L2, B2)
  {
    var s1 := Serve(EMPTY, REQUESTS[0], 3);
    assert s1 == Store(EMPTY_LEDGER.(events := map[K1 := Received(OLDER)]), EMPTY_BRAIN);
    var s2 := Serve(s1, REQUESTS[1], 3);
    assert s2.brain.facts == [FACT0] && s2.brain.bindings == map[WorkerKey(K1) := 0];
    assert s2.ledger.events == map[K1 := E1];
    assert s2.ledger.rows == map[0 := ROW0];
    assert s2 == Store(L2, B2);
  }

  lemma NextTwo()
    ensures Serve(Serve(Store(L2, B2), REQUESTS[2], 3), REQUESTS[3], 3) == Store(L4, B2)
  {
    Third();
    Fourth();
    hide Serve;
  }

  const L3 := L2.(events := map[K1 := E1, K2 := Received(NEWER)])

  lemma Third()
    ensures Serve(Store(L2, B2), REQUESTS[2], 3) == Store(L3, B2)
  {
    assert Serve(Store(L2, B2), REQUESTS[2], 3).ledger.events == L3.events;
  }

  lemma Fourth()
    ensures Serve(Store(L3, B2), REQUESTS[3], 3) == Store(L4, B2)
  {
    var s2 := Serve(Store(L3, B2), REQUESTS[3], 3);
    assert s2.ledger.events == L4.events;
    assert s2.ledger.receipts == L4.receipts;
  }

  const ROW1 := Row(HOME, K2, KEYS, false, false, Active, None, 3)
  const FACT1 := Fact("t", "green", CreateKey(0, "k1"), false, None)
  const L5 := L4.(events := map[K1 := E1, K2 := E2.(result := Some(CandidateConfirmed), backendRef := Some(1), revision := Some(3))],
                  reviews := [Review(K2, Confirmed, 2, Some(0))],
                  ops := [Op(0, "k1", "t", "u", "w", RetainBoth, 1, Some(1), None, None)], opByKey := map["k1" := 0],
                  rows := map[0 := ROW0, 1 := ROW1], rowByOrigin := map[K1 := 0, K2 := 1], revision := 3)
  const B5 := Brain([FACT0, FACT1], map[WorkerKey(K1) := 0, CreateKey(0, "k1") := 1], map[], {})

  const L6 := L5.(reviews := [Review(K2, Open, 3, Some(1))],
                  ops := L5.ops + [Op(0, "k2", "t", "u", "w", Revert, 2, Some(1), None, Some(0))], opByKey := map["k1" := 0, "k2" := 1],
                  rows := map[0 := ROW0, 1 := ROW1.(status := Archived, updated := 4)],
                  tombstones := map[1 := Tombstone("t", "u", 4, None)], revision := 4)
  const B6 := B5.(facts := [FACT0, FACT1.(expired := true)],
                  operations := map[ArchiveKey(0, "k2") := Operation(ArchiveOp, OnFact(1), FactRef(1))])

  lemma ConfirmPasses()
    ensures ResolveStop(L4, CONFIRM).None? && ConfirmRefusal(L4, CONFIRM, 1).None?
  {
    assert CandidateProblem(L4, 0, WHO, 1).None?;
  }

  lemma ConfirmInGBrain()
    ensures ConfirmBrain(L4, B2, CONFIRM, 3) == Step(B5, Ok(FactRef(1)))
  {
    var step := ConfirmBrain(L4, B2, CONFIRM, 3);
    assert step.brain.facts == B5.facts && step.brain.bindings == B5.bindings;
  }

  lemma ConfirmInLedger()
    ensures CommitConfirm(L4, 0, "k1", RetainBoth, NEWER, 1, None) == L5
  {
    var l := CommitConfirm(L4, 0, "k1", RetainBoth, NEWER, 1, None);
    assert l.events == L5.events && l.rows == L5.rows && l.rowByOrigin == L5.rowByOrigin && l.externals == L5.externals;
    assert l.ops == L5.ops && l.opByKey == L5.opByKey && l.reviews == L5.reviews;
  }

  lemma Confirming()
    ensures Serve(Store(L4, B2), REQUESTS[4], 3) == Store(L5, B5)
  {
    hide ResolveStop, ConfirmBrain, ConfirmRefusal, CommitConfirm, Resolve;
    ConfirmPasses();
    ConfirmInGBrain();
    ConfirmInLedger();
    ResolveConfirms(Store(L4, B2), CONFIRM, 3);
  }

  lemma UndoPasses()
    ensures RevertStop(L5, UNDO).None? && RevertRefusal(L5, UNDO).None?
  {
    assert CandidateProblem(L5, 0, WHO, 2).None?;
  }

  lemma UndoInGBrain()
    ensures RevertBrain(B5, UNDO, L5.ops[0]) == Step(B6, Ok(FactRef(1)))
  {
    var step := RevertBrain(B5, UNDO, L5.ops[0]);
    assert step.brain.facts == B6.facts && step.brain.operations == B6.operations;
  }

  lemma UndoInLedger()
    ensures CommitRevert(L5, 0, "k2", 0) == L6
  {
    var l := CommitRevert(L5, 0, "k2", 0);
    assert l.rows == L6.rows && l.tombstones == L6.tombstones && l.crystals == L6.crystals;
    assert l.ops == L6.ops && l.opByKey == L6.opByKey && l.reviews == L6.reviews;
  }

  lemma Undoing()
    ensures Serve(Store(L5, B5), REQUESTS[5], 3) == Store(L6, B6)
  {
    hide RevertStop, RevertBrain, RevertRefusal, CommitRevert, RevertOp;
    UndoPasses();
    UndoInGBrain();
    UndoInLedger();
    RevertCommitsBoth(Store(L5, B5), UNDO, 3);
  }

  lemma SupersedePasses()
    ensures ResolveStop(L6, SUPERSEDE).None? && ConfirmRefusal(L6, SUPERSEDE, 2) == Some(OriginTaken)
  {
    hide ConflictsFor, ConfirmRefusal, CandidateProblem;
    assert CandidateProblem(L6, 0, WHO, 3).None? by { SupersedeIsAllowed(); }
    SupersedeConflicts();
    SupersedeIsRefused();
  }

  lemma SupersedeIsAllowed()
    ensures CandidateProblem(L6, 0, WHO, 3).None?
  {
  }

  lemma SupersedeConflicts()
    ensures 0 in ConflictsFor(L6, SUPERSEDE)
  {
  }

  lemma SupersedeIsRefused()
    ensures ConfirmRefusal(L6, SUPERSEDE, 2) == Some(OriginTaken)
  {
  }

  lemma SupersedeInGBrain()
    ensures var step := ConfirmBrain(L6, B6, SUPERSEDE, 3);
      && step.reply == Ok(FactRef(2)) && |step.brain.facts| == 3 && step.brain.facts[0] == FACT0.(supersededBy := Some(2))
  {
    hide Upsert, Supersede;
    var created := Upsert(B6, CreateKey(0, "k3"), "t", "green");
    ThirdFact();
    SupersedeSucceeds(created.brain, SupersedeKey(0, "k3"), 0, 2);
  }

  lemma ThirdFact()
    ensures var created := Upsert(B6, CreateKey(0, "k3"), "t", "green");
      && created.reply == Ok(FactRef(2)) && created.brain.facts == B6.facts + [Fact("t", "green", CreateKey(0, "k3"), false, None)]
      && created.brain.operations == B6.operations && SupersedeKey(0, "k3") !in created.brain.bindings
  {
  }

  lemma Superseding()
    ensures ResolveStrands(Store(L6, B6), SUPERSEDE)
    ensures var s := Serve(Store(L6, B6), REQUESTS[6], 3);
      && s.ledger == L6 && |s.brain.facts| == 3 && s.brain.facts[0] == FACT0.(supersededBy := Some(2))
  {
    hide ResolveStop, ConfirmBrain, ConfirmRefusal, CommitConfirm, Resolve;
    SupersedePasses();
    SupersedeInGBrain();
    ResolveConfirms(Store(L6, B6), SUPERSEDE, 3);
  }

  /** Seven complete requests from the empty stores; the last one leaves memory 0 active for the ledger and
      superseded for GBrain. */
  lemma StoresDisagree()
    ensures var s := Run(EMPTY, Complete(REQUESTS));
      && 0 in s.ledger.rows && s.ledger.rows[0].status == Active
      && |s.brain.facts| == 3 && StatusOf(s.brain.facts[0]) == Superseded
      && !Agree(s.ledger, s.brain, {})
  {
    FirstTwo();
    NextTwo();
    Confirming();
    Undoing();
    Superseding();
    RunOfSeven(REQUESTS);
    DisagreeAt(L6, Serve(Store(L6, B6), REQUESTS[6], 3).brain, 0, {});
    hide Serve, Run;
  }

  lemma RunOfSeven(rs: seq<Request>)
    requires |rs| == 7
    ensures Run(EMPTY, Complete(rs)) == Serve(Serve(Serve(Serve(Serve(Serve(Serve(EMPTY, rs[0], 3), rs[1], 3), rs[2], 3), rs[3], 3), rs[4], 3), rs[5], 3), rs[6], 3)
  {
    hide Serve;
    var s1 := Serve(EMPTY, rs[0], 3);
    var s2 := Serve(s1, rs[1], 3);
    var s3 := Serve(s2, rs[2], 3);
    var s4 := Serve(s3, rs[3], 3);
    var s5 := Serve(s4, rs[4], 3);
    var s6 := Serve(s5, rs[5], 3);
    RunStep(EMPTY, rs);
    RunStep(s1, rs[1..]);
    RunStep(s2, rs[2..]);
    RunStep(s3, rs[3..]);
    RunStep(s4, rs[4..]);
    RunStep(s5, rs[5..]);
    RunStep(s6, rs[6..]);
    hide Run;
    assert rs[1..][1..] == rs[2..] && rs[2..][1..] == rs[3..] && rs[3..][1..] == rs[4..];
    assert rs[4..][1..] == rs[5..] && rs[5..][1..] == rs[6..] && rs[6..][1..] == [];
    RunOfNone(Serve(s6, rs[6], 3));
  }

  lemma RunStep(s: Store, rs: seq<Request>)
    requires rs != []
    ensures Run(s, Complete(rs)) == Run(Serve(s, rs[0], 3), Complete(rs[1..]))
  {
    hide Serve;
    assert Complete(rs)[1..] == Complete(rs[1..]);
  }

  lemma RunOfNone(s: Store)
    ensures Run(s, Complete([])) == s
  {
  }
}
