/** Which answers of the gateway end a queued event and which keep it queued (src/agent_memory_gateway/sidecar_client.py),
    for one push and over every run of the device. The verdicts are written on the fields of the answer. */
module PushAnswers {
  import opened Names
  import opened Outbox

  // ---- what an answer says about one event

  /** The last element of the answer that names the event; an earlier one does not count. */
  predicate LastFor(results: seq<Result>, id: string, i: nat) {
    i < |results| && results[i].event == id && forall j | i < j < |results| :: results[j].event != id
  }

  /** Taken over by the gateway, or refused without a word that a retry could help. */
  predicate Final(r: Result) {
    r.status in {Status.Applied, Status.Duplicate} || (r.status == Rejected && (r.retryable.None? || !r.retryable.value))
  }

  /** The answer acknowledges the event: its last result is final. */
  ghost predicate Acknowledges(response: PushResponse, id: string) {
    response.Results? && exists i: nat :: LastFor(response.results, id, i) && Final(response.results[i])
  }

  /** The answer gives the event up: the request failed for good, or the last result is not final and rules out a retry. */
  ghost predicate GivesUp(response: PushResponse, id: string) {
    || (response.HttpFailure? && !response.retryable)
    || (response.Results? && exists i: nat :: LastFor(response.results, id, i) && !Final(response.results[i])
                                              && response.results[i].retryable == Some(false))
  }

  ghost predicate Ends(response: PushResponse, id: string) {
    Acknowledges(response, id) || GivesUp(response, id)
  }

  /** The event may be sent at this time. */
  predicate SendableAt(q: Queue, id: string, now: real) {
    && id in q.entries && (q.entries[id].state == Waiting || q.entries[id].state == Failing)
    && (q.entries[id].due.None? || q.entries[id].due.value <= now)
  }

  /** The queue holds the event, waiting or failing, and it is not in flight or settled. */
  predicate Queued(q: Queue, id: string) {
    id in q.entries && (q.entries[id].state == Waiting || q.entries[id].state == Failing)
  }

  lemma ListedExactly(q: Queue, id: string, now: real)
    ensures Listed(q, id, now) <==> SendableAt(q, id, now)
  {
  }

  lemma {:induction false} ResultForIsLast(results: seq<Result>, id: string)
    ensures ResultFor(results, id).Some? <==> exists i: nat :: LastFor(results, id, i)
    ensures forall i: nat | LastFor(results, id, i) :: ResultFor(results, id) == Some(results[i])
    decreases |results|
  {
    if results != [] {
      var n := |results| - 1;
      if results[n].event == id {
        assert LastFor(results, id, n);
      } else {
        ResultForIsLast(results[..n], id);
        forall i: nat ensures LastFor(results, id, i) <==> LastFor(results[..n], id, i) {
        }
      }
    }
  }

  // ---- settling one event

  /** The entry and the receipt of one event. */
  predicate SameAt(q: Queue, q': Queue, id: string) {
    && (id in q.entries <==> id in q'.entries) && (id in q.entries ==> q'.entries[id] == q.entries[id])
    && (id in q.receipts <==> id in q'.receipts) && (id in q.receipts ==> q'.receipts[id] == q.receipts[id])
  }

  lemma SettleOther(q: Queue, other: string, response: PushResponse, backoff: Backoff, id: string)
    requires !response.Unreadable? && id != other
    ensures SameAt(q, Settle(q, other, response, backoff), id)
  {
    hide ResultFor, Terminal;
  }

  lemma SettleLocal(q: Queue, p: Queue, response: PushResponse, backoff: Backoff, id: string)
    requires !response.Unreadable? && SameAt(q, p, id)
    ensures SameAt(Settle(q, id, response, backoff), Settle(p, id, response, backoff), id)
  {
    hide ResultFor, Terminal;
  }

  lemma {:induction false} SettleOthers(q: Queue, batch: seq<string>, response: PushResponse, backoff: Backoff, id: string)
    requires (batch == [] || !response.Unreadable?) && id !in batch
    ensures SameAt(q, SettleAll(q, batch, response, backoff), id)
    decreases |batch|
  {
    if batch != [] {
      var n := |batch| - 1;
      SettleOthers(q, batch[..n], response, backoff, id);
      hide Settle;
      SettleOther(SettleAll(q, batch[..n], response, backoff), batch[n], response, backoff, id);
    }
  }

  /** In a batch without repetitions each event is settled as if it were alone. */
  lemma {:induction false} SettleAlone(q: Queue, batch: seq<string>, response: PushResponse, backoff: Backoff, id: string)
    requires !response.Unreadable? && id in batch && forall i, j | 0 <= i < j < |batch| :: batch[i] != batch[j]
    ensures SameAt(SettleAll(q, batch, response, backoff), Settle(q, id, response, backoff), id)
    decreases |batch|
  {
    hide Settle;
    var n := |batch| - 1;
    var before := SettleAll(q, batch[..n], response, backoff);
    if batch[n] == id {
      SettleOthers(q, batch[..n], response, backoff, id);
      SettleLocal(before, q, response, backoff, id);
    } else {
      SettleAlone(q, batch[..n], response, backoff, id);
      SettleOther(before, batch[n], response, backoff, id);
    }
  }

  /** What the push makes of one entry: acknowledged, given up, or kept for another attempt. */
  ghost predicate Outcome(q: Queue, q': Queue, id: string, response: PushResponse, backoff: Backoff)
    requires id in q.entries && id in q'.entries
  {
    var e, e' := q.entries[id], q'.entries[id];
    if Acknowledges(response, id) then
      && e' == e.(state := Acked, due := None)
      && forall i: nat | LastFor(response.results, id, i) ::
           id in q'.receipts && q'.receipts[id] == Receipt(response.results[i].status, response.results[i].ack, response.results[i].error)
    else if GivesUp(response, id) then
      && e' == e.(state := DeadLettered, due := None) && id in q'.receipts && q'.receipts[id].status == Rejected
      && (response.HttpFailure? ==> q'.receipts[id].error == response.code)
      && (response.Results? ==> forall i: nat | LastFor(response.results, id, i) :: q'.receipts[id].error == response.results[i].error)
    else
      && e' == e.(state := Failing, attempts := e.attempts + 1, due := Some(backoff(id, e.attempts + 1)))
      && (id in q'.receipts <==> id in q.receipts) && (id in q.receipts ==> q'.receipts[id] == q.receipts[id])
  }

  lemma SettleOutcome(q: Queue, id: string, response: PushResponse, backoff: Backoff)
    requires !response.Unreadable? && id in q.entries
    ensures id in Settle(q, id, response, backoff).entries && Outcome(q, Settle(q, id, response, backoff), id, response, backoff)
  {
    if response.Results? {
      ResultForIsLast(response.results, id);
      hide ResultFor;
    }
  }

  lemma OutcomeAt(q: Queue, sent: Queue, q': Queue, p: Queue, id: string, response: PushResponse, backoff: Backoff)
    requires id in q.entries && id in sent.entries && sent.entries[id] == q.entries[id].(state := InFlight) && sent.receipts == q.receipts
    requires id in p.entries && Outcome(sent, p, id, response, backoff) && SameAt(q', p, id)
    ensures id in q'.entries && Outcome(q, q', id, response, backoff)
  {
    hide Acknowledges, GivesUp, LastFor;
  }

  lemma PushOutcome(q: Queue, batch: seq<string>, now: real, response: PushResponse, backoff: Backoff, id: string)
    requires (forall i <- batch :: SendableAt(q, i, now)) && id in batch
    requires forall i, j | 0 <= i < j < |batch| :: batch[i] != batch[j]
    requires response != Unreadable && response != ResetRequired("")
    ensures SendableAt(q, id, now) && id in Pushed(q, batch, response, backoff).entries
    ensures Outcome(q, Pushed(q, batch, response, backoff), id, response, backoff)
  {
    hide Settle, SettleAll, Outcome;
    var sent := MarkInFlight(q, batch);
    SettleAlone(sent, batch, response, backoff, id);
    SettleOutcome(sent, id, response, backoff);
    OutcomeAt(q, sent, Pushed(q, batch, response, backoff), Settle(sent, id, response, backoff), id, response, backoff);
  }

  /** After a push whose answer can be read, an event of the batch is acknowledged exactly when the last result for it
      is applied, duplicate, or rejected and not marked retryable; it is a dead letter exactly when the request failed
      for good or its last result is none of those and rules out a retry; and otherwise it is queued again, one attempt
      on, and may be sent from the backoff on and no earlier. */
  lemma AnswerDecides(q: Queue, batch: seq<string>, now: real, response: PushResponse, backoff: Backoff, id: string)
    requires (forall i <- batch :: SendableAt(q, i, now)) && id in batch
    requires forall i, j | 0 <= i < j < |batch| :: batch[i] != batch[j]
    requires response != Unreadable && response != ResetRequired("")
    ensures SendableAt(q, id, now)
    ensures var q' := Pushed(q, batch, response, backoff);
      && id in q'.entries && Outcome(q, q', id, response, backoff)
      && (q'.entries[id].state == Acked <==> Acknowledges(response, id))
      && (q'.entries[id].state == DeadLettered <==> GivesUp(response, id))
      && (Queued(q', id) <==> !Ends(response, id))
      && forall later: real :: Listed(q', id, later) <==> !Ends(response, id) && backoff(id, q.entries[id].attempts + 1) <= later
  {
    hide Pushed, LastFor, Final;
    PushOutcome(q, batch, now, response, backoff, id);
    VerdictsExclude(response, id);
  }

  lemma VerdictsExclude(response: PushResponse, id: string)
    ensures !(Acknowledges(response, id) && GivesUp(response, id))
  {
  }

  // ---- runs of the device

  /** The action sends the event and reads an answer that ends it, before any crash. */
  ghost predicate Answers(a: Action, id: string) {
    match a
    case Pushing(batch, _, response, _) => id in batch && Ends(response, id)
    case CrashedPush(batch, _, response, _, settled) => settled <= |batch| && id in batch[..settled] && Ends(response, id)
    case _ => false
  }

  /** Waiting to be sent, in flight or failing: not settled. */
  predicate Unsettled(q: Queue, id: string) {
    id in q.entries && q.entries[id].state != Acked && q.entries[id].state != DeadLettered
  }

  predicate SameReceipt(q: Queue, q': Queue, id: string) {
    (id in q.receipts <==> id in q'.receipts) && (id in q.receipts ==> q'.receipts[id] == q.receipts[id])
  }

  lemma SettleKeepsUnanswered(q: Queue, other: string, response: PushResponse, backoff: Backoff, id: string)
    requires !response.Unreadable? && (id == other ==> !Ends(response, id))
    ensures SameReceipt(q, Settle(q, other, response, backoff), id)
    ensures Unsettled(q, id) ==> Unsettled(Settle(q, other, response, backoff), id)
  {
    if id != other {
      SettleOther(q, other, response, backoff, id);
    } else if id in q.entries {
      SettleOutcome(q, id, response, backoff);
      hide Settle, LastFor;
    } else {
      AbsentIsIgnored(q, id, response, backoff);
      hide Settle, LastFor;
    }
  }

  lemma AbsentIsIgnored(q: Queue, id: string, response: PushResponse, backoff: Backoff)
    requires !response.Unreadable? && id !in q.entries && !Ends(response, id)
    ensures Settle(q, id, response, backoff) == q
  {
    if response.Results? {
      ResultForIsLast(response.results, id);
      hide ResultFor;
    }
  }

  lemma {:induction false} SettleAllKeepsUnanswered(q: Queue, batch: seq<string>, response: PushResponse, backoff: Backoff, id: string)
    requires (batch == [] || !response.Unreadable?) && (id in batch ==> !Ends(response, id))
    ensures SameReceipt(q, SettleAll(q, batch, response, backoff), id)
    ensures Unsettled(q, id) ==> Unsettled(SettleAll(q, batch, response, backoff), id)
    decreases |batch|
  {
    hide Ends, Settle;
    if batch != [] {
      var n := |batch| - 1;
      SettleAllKeepsUnanswered(q, batch[..n], response, backoff, id);
      SettleKeepsUnanswered(SettleAll(q, batch[..n], response, backoff), batch[n], response, backoff, id);
    }
  }

  lemma ActionKeepsUnanswered(q: Queue, a: Action, id: string)
    requires !Answers(a, id)
    ensures SameReceipt(q, Do(q, a), id) && (Unsettled(q, id) ==> Unsettled(Do(q, a), id))
  {
    hide Ends, SettleAll;
    match a
    case Pushing(batch, now, response, backoff) =>
      if !Raises(response) { SettleAllKeepsUnanswered(MarkInFlight(q, batch), batch, response, backoff, id); }
    case CrashedPush(batch, now, response, backoff, settled) =>
      if Reaches(batch, response, settled) { SettleAllKeepsUnanswered(MarkInFlight(q, batch), batch[..settled], response, backoff, id); }
    case _ =>
  }

  /** Over every run of the device, with crashes, cleanups and restarts, an event that no push of the run was given a
      final answer for stays unsettled in the queue, and its receipt stays as it was. */
  lemma {:induction false} QueuedUntilAnswered(q: Queue, actions: seq<Action>, id: string)
    requires forall a <- actions :: !Answers(a, id)
    ensures SameReceipt(q, Run(q, actions), id) && (Unsettled(q, id) ==> Unsettled(Run(q, actions), id))
    decreases |actions|
  {
    hide Answers, Do;
    if actions != [] {
      assert !Answers(actions[0], id);
      ActionKeepsUnanswered(q, actions[0], id);
      QueuedUntilAnswered(Do(q, actions[0]), actions[1..], id);
    }
  }

  /** So a receipt, and a settled entry, is only ever due to such an answer. */
  lemma SettledOnlyByAnswer(actions: seq<Action>, id: string)
    requires var q := Run(EMPTY_QUEUE, actions); id in q.receipts || (id in q.entries && !Unsettled(q, id))
    ensures exists a <- actions :: Answers(a, id)
  {
    hide Answers, Run;
    if !exists a <- actions :: Answers(a, id) {
      QueuedUntilAnswered(EMPTY_QUEUE, actions, id);
      NothingEverSettled(actions, id);
    }
  }

  lemma NothingEverSettled(actions: seq<Action>, id: string)
    ensures id !in Run(EMPTY_QUEUE, actions).receipts ==> (id in Run(EMPTY_QUEUE, actions).entries ==> Unsettled(Run(EMPTY_QUEUE, actions), id))
  {
    hide Run;
    RunIsSound(EMPTY_QUEUE, actions);
  }

  lemma {:induction false} RunIsSound(q: Queue, actions: seq<Action>)
    requires Sound(q)
    ensures Sound(Run(q, actions))
    decreases |actions|
  {
    hide Sound, Do;
    if actions != [] {
      ActionKeeps(q, actions[0]);
      RunIsSound(Do(q, actions[0]), actions[1..]);
    }
  }

  // ---- what is settled

  lemma BatchLeavesSettled(q: Queue, batch: seq<string>, prefix: seq<string>, now: real, response: PushResponse, backoff: Backoff, id: string)
    requires IsBatch(q, batch, now) && id in q.entries && !Unsettled(q, id) && (prefix == [] || !response.Unreadable?)
    requires forall other <- prefix :: other in batch
    ensures SameAt(q, SettleAll(MarkInFlight(q, batch), prefix, response, backoff), id)
  {
    assert id !in batch;
    SettleOthers(MarkInFlight(q, batch), prefix, response, backoff, id);
    hide SettleAll;
  }

  lemma ActionLeavesSettled(q: Queue, a: Action, id: string)
    requires id in q.entries && !Unsettled(q, id) && (q.entries[id].state == Acked ==> !a.CleaningUp?)
    ensures SameAt(q, Do(q, a), id)
  {
    hide SettleAll, MarkInFlight, IsBatch;
    match a
    case Pushing(batch, now, response, backoff) =>
      if IsBatch(q, batch, now) {
        BatchLeavesSettled(q, batch, if Raises(response) then [] else batch, now, response, backoff, id);
        EmptySettle(MarkInFlight(q, batch), response, backoff);
      }
    case CrashedPush(batch, now, response, backoff, settled) =>
      if IsBatch(q, batch, now) && Reaches(batch, response, settled) {
        BatchLeavesSettled(q, batch, batch[..settled], now, response, backoff, id);
      }
    case _ =>
  }

  lemma EmptySettle(q: Queue, response: PushResponse, backoff: Backoff)
    ensures SettleAll(q, [], response, backoff) == q
  {
  }

  /** Over every run a dead letter stays in the queue with its receipt, and an acknowledged event stays until the user
      has the queue cleaned up. */
  lemma {:induction false} SettledStays(q: Queue, actions: seq<Action>, id: string)
    requires id in q.entries && !Unsettled(q, id)
    requires q.entries[id].state == Acked ==> CleaningUp !in actions
    ensures SameAt(q, Run(q, actions), id)
    decreases |actions|
  {
    hide Do;
    if actions != [] {
      ActionLeavesSettled(q, actions[0], id);
      SettledStays(Do(q, actions[0]), actions[1..], id);
    }
  }

  // ---- restarts and cleanups

  /** After a restart every event that is not settled can be sent: at once if it was in flight, else from its due time. */
  lemma RestartMakesSendable(q: Queue, id: string, now: real)
    ensures Listed(Do(q, Reopening), id, now) <==>
      Unsettled(q, id) && (q.entries[id].state == InFlight || q.entries[id].due.None? || q.entries[id].due.value <= now)
    ensures Do(q, Reopening).receipts == q.receipts
  {
  }

  /** An id can be used for a new event only after the old one was acknowledged and cleaned up: until then enqueueing it
      leaves the old entry as it is. */
  lemma CleanupFreesTheId(q: Queue, id: string, workspace: string)
    requires Sound(q) && id != "" && id in q.entries
    ensures var kept, freed := Do(q, Enqueueing(id, workspace)), Run(q, [CleaningUp, Enqueueing(id, workspace)]);
      && id in kept.entries && kept.entries[id] == q.entries[id] && id in freed.entries
      && freed.entries[id] == if q.entries[id].state == Acked then Entry(q.counter + 1, workspace, Waiting, 0, None) else q.entries[id]
  {
    var cleaned := Do(q, CleaningUp);
    CleaningKeeps(q);
    RunOfTwo(q, CleaningUp, Enqueueing(id, workspace));
    hide Run, Sound, Keeps;
    if q.entries[id].state == Acked { EnqueueAccepts(cleaned, id, workspace); }
  }

  lemma RunOfTwo(q: Queue, a: Action, b: Action)
    ensures Run(q, [a, b]) == Do(Do(q, a), b)
  {
    hide Do;
    assert [a, b][1..] == [b] && [b][1..] == [];
    assert Run(Do(q, a), [b]) == Run(Do(Do(q, a), b), []);
  }
}
