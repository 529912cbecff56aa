/** The device's durable event queue (src/agent_memory_gateway/outbox.py) and what one push of the sidecar does to
    it (src/agent_memory_gateway/sidecar_client.py). The gateway's answer to a push is arbitrary. */
module Outbox {
  import opened Names

  datatype State = Waiting | InFlight | Acked | Failing | DeadLettered {
    predicate Sendable() { Waiting? || Failing? }
    predicate Settled() { Acked? || DeadLettered? }
  }

  /** due: the time before which a failed event is not sent again. */
  datatype Entry = Entry(seqNo: int, workspace: string, state: State, attempts: nat, due: Option<real>)

  datatype Status = Applied | Duplicate | Rejected | Unsettled

  datatype Receipt = Receipt(status: Status, ack: string, error: string)

  datatype Queue = Queue(entries: map<string, Entry>, receipts: map<string, Receipt>, counter: int)

  const EMPTY_QUEUE := Queue(map[], map[], 0)

  /** One element of a push response; retryable is optional in the protocol. */
  datatype Result = Result(event: string, status: Status, retryable: Option<bool>, ack: string, error: string)

  /** Unreadable: a successful answer whose body is not the JSON object the protocol asks for. */
  datatype PushResponse =
    | HttpFailure(code: string, retryable: bool)
    | TransportFailure
    | Unreadable
    | ResetRequired(epoch: string)
    | Results(results: seq<Result>)

  // ---- transactions of the outbox

  function Prepared(q: Queue): Queue {
    q.(counter := q.counter + 1)
  }

  predicate CanEnqueue(q: Queue, id: string, seqNo: int) {
    id != "" && id !in q.entries && forall other <- q.entries :: q.entries[other].seqNo != seqNo
  }

  function Enqueued(q: Queue, id: string, seqNo: int, workspace: string): Queue {
    if CanEnqueue(q, id, seqNo) then q.(entries := q.entries[id := Entry(seqNo, workspace, Waiting, 0, None)]) else q
  }

  predicate Listed(q: Queue, id: string, now: real) {
    && id in q.entries && q.entries[id].state.Sendable()
    && (q.entries[id].due.None? || q.entries[id].due.value <= now)
  }

  function MarkInFlight(q: Queue, ids: seq<string>): Queue {
    q.(entries := map id | id in q.entries ::
         if id in ids && q.entries[id].state.Sendable() then q.entries[id].(state := InFlight) else q.entries[id])
  }

  function MarkFailing(q: Queue, id: string, due: real): Queue {
    if id !in q.entries then q
    else q.(entries := q.entries[id := q.entries[id].(state := Failing, attempts := q.entries[id].attempts + 1, due := Some(due))])
  }

  function MarkTerminal(q: Queue, id: string, receipt: Receipt): Queue {
    Queue(if id in q.entries then q.entries[id := q.entries[id].(state := Acked, due := None)] else q.entries,
          q.receipts[id := receipt], q.counter)
  }

  function MarkDeadLetter(q: Queue, id: string, error: string): Queue {
    if id !in q.entries then q
    else
      Queue(q.entries[id := q.entries[id].(state := DeadLettered, due := None)],
            q.receipts[id := if id in q.receipts then q.receipts[id].(status := Rejected, error := error)
                             else Receipt(Rejected, "", error)],
            q.counter)
  }

  function CleanedUp(q: Queue): Queue {
    q.(entries := map id | id in q.entries && q.entries[id].state != Acked :: q.entries[id])
  }

  /** Opening the outbox puts what a crash left in flight back into the queue. */
  function Reopened(q: Queue): Queue {
    q.(entries := map id | id in q.entries ::
         if q.entries[id].state == InFlight then q.entries[id].(state := Failing, due := None) else q.entries[id])
  }

  // ---- one push

  /** The results are collected in a dictionary, so the last one for an event counts. */
  function ResultFor(results: seq<Result>, id: string): Option<Result> {
    if results == [] then None
    else if results[|results| - 1].event == id then Some(results[|results| - 1])
    else ResultFor(results[..|results| - 1], id)
  }

  predicate Terminal(r: Result) {
    r.status == Applied || r.status == Duplicate || (r.status == Rejected && r.retryable != Some(true))
  }

  type Backoff = (string, nat) -> real

  function RetryAt(q: Queue, id: string, backoff: Backoff): real {
    backoff(id, if id in q.entries then q.entries[id].attempts + 1 else 0)
  }

  function ReceiptOf(r: Result): Receipt {
    Receipt(r.status, r.ack, r.error)
  }

  /** What the response makes of one event of the batch. */
  function Settle(q: Queue, id: string, response: PushResponse, backoff: Backoff): Queue
    requires !response.Unreadable?
  {
    match response
    case HttpFailure(code, retryable) => if retryable then MarkFailing(q, id, RetryAt(q, id, backoff)) else MarkDeadLetter(q, id, code)
    case TransportFailure => MarkFailing(q, id, RetryAt(q, id, backoff))
    case ResetRequired(_) => MarkFailing(q, id, RetryAt(q, id, backoff))
    case Results(results) =>
      match ResultFor(results, id)
      case None => MarkFailing(q, id, RetryAt(q, id, backoff))
      case Some(r) =>
        if Terminal(r) then MarkTerminal(q, id, ReceiptOf(r))
        else if r.retryable != Some(false) then MarkFailing(q, id, RetryAt(q, id, backoff))
        else MarkDeadLetter(q, id, r.error)
  }

  function SettleAll(q: Queue, batch: seq<string>, response: PushResponse, backoff: Backoff): Queue
    requires batch == [] || !response.Unreadable?
  {
    if batch == [] then q
    else Settle(SettleAll(q, batch[..|batch| - 1], response, backoff), batch[|batch| - 1], response, backoff)
  }

  /** An answer that cannot be read, or a reset without an epoch, raises out of the push before any event is settled. */
  predicate Raises(response: PushResponse) {
    response == Unreadable || response == ResetRequired("")
  }

  function Pushed(q: Queue, batch: seq<string>, response: PushResponse, backoff: Backoff): Queue {
    var sent := MarkInFlight(q, batch);
    if Raises(response) then sent else SettleAll(sent, batch, response, backoff)
  }

  // ---- runs of the device

  datatype Action =
    | Enqueueing(id: string, workspace: string)
    | Pushing(batch: seq<string>, now: real, response: PushResponse, backoff: Backoff)
    | CrashedPush(batch: seq<string>, now: real, response: PushResponse, backoff: Backoff, settled: nat)
    | CleaningUp
    | Reopening

  predicate IsBatch(q: Queue, batch: seq<string>, now: real) {
    forall id <- batch :: Listed(q, id, now)
  }

  /** How far a push can get before the process dies. */
  predicate Reaches(batch: seq<string>, response: PushResponse, settled: nat) {
    settled <= |batch| && (Raises(response) ==> settled == 0)
  }

  /** A batch is drawn from the listed events; a crash settles some of it, and the outbox is then opened again. */
  function Do(q: Queue, a: Action): Queue {
    match a
    case Enqueueing(id, workspace) => Enqueued(Prepared(q), id, q.counter + 1, workspace)
    case Pushing(batch, now, response, backoff) => if IsBatch(q, batch, now) then Pushed(q, batch, response, backoff) else q
    case CrashedPush(batch, now, response, backoff, settled) =>
      if IsBatch(q, batch, now) && Reaches(batch, response, settled) then
        Reopened(SettleAll(MarkInFlight(q, batch), batch[..settled], response, backoff))
      else q
    case CleaningUp => CleanedUp(q)
    case Reopening => Reopened(q)
  }

  function Run(q: Queue, actions: seq<Action>): Queue
    decreases |actions|
  {
    if actions == [] then q else Run(Do(q, actions[0]), actions[1..])
  }

  function Sent(q: Queue, a: Action): seq<string> {
    match a
    case Pushing(batch, now, _, _) => if IsBatch(q, batch, now) then batch else []
    case CrashedPush(batch, now, response, _, settled) => if IsBatch(q, batch, now) && Reaches(batch, response, settled) then batch else []
    case _ => []
  }

  /** A settled event has its receipt, no two events share a sequence number, and none is beyond the counter. */
  ghost predicate Sound(q: Queue) {
    && (forall id <- q.entries | q.entries[id].state.Settled() :: id in q.receipts)
    && (forall a <- q.entries, b <- q.entries | a != b :: q.entries[a].seqNo != q.entries[b].seqNo)
    && (forall id <- q.entries :: q.entries[id].seqNo <= q.counter)
  }

  /** Nothing known is forgotten, and what is settled stays settled or is cleaned up. */
  ghost predicate Keeps(q: Queue, q': Queue) {
    && (forall id <- q.entries :: id in q'.entries || id in q'.receipts)
    && (forall id <- q.receipts :: id in q'.receipts)
    && (forall id <- q.entries | q.entries[id].state.Settled() ::
          && (id in q'.entries ==> q'.entries[id].state == q.entries[id].state)
          && (id in q.receipts ==> id in q'.receipts && q'.receipts[id] == q.receipts[id]))
    && (forall id | id !in q.entries && id in q.receipts && id !in q'.entries :: q'.receipts[id] == q.receipts[id])
  }

  lemma SettleKeeps(q: Queue, id: string, response: PushResponse, backoff: Backoff)
    requires Sound(q) && !response.Unreadable?
    ensures Sound(Settle(q, id, response, backoff)) && Touches(q, Settle(q, id, response, backoff), id)
  {
    hide ResultFor, Terminal, MarkFailing, MarkTerminal, MarkDeadLetter, Sound, RetryAt, Touches;
    MarksKeep(q, id, RetryAt(q, id, backoff), match response case HttpFailure(code, _) => code case _ => "");
    if response.Results? && ResultFor(response.results, id).Some? {
      var r := ResultFor(response.results, id).value;
      TerminalKeeps(q, id, ReceiptOf(r));
      MarksKeep(q, id, RetryAt(q, id, backoff), r.error);
    }
  }

  /** What the marks have in common: one entry takes another state, receipts are only added or replaced for it. */
  ghost predicate Touches(q: Queue, q': Queue, id: string) {
    && q'.entries.Keys == q.entries.Keys && q'.counter == q.counter
    && (forall other <- q.entries | other != id :: q'.entries[other] == q.entries[other])
    && (forall other <- q.receipts :: other in q'.receipts && (other != id ==> q'.receipts[other] == q.receipts[other]))
    && (id in q.entries ==> q'.entries[id].state != InFlight && q'.entries[id].seqNo == q.entries[id].seqNo
                            && (q'.entries[id].state.Settled() ==> id in q'.receipts))
  }

  lemma MarksKeep(q: Queue, id: string, due: real, error: string)
    requires Sound(q)
    ensures Touches(q, MarkFailing(q, id, due), id) && Sound(MarkFailing(q, id, due))
    ensures Touches(q, MarkDeadLetter(q, id, error), id) && Sound(MarkDeadLetter(q, id, error))
  {
    hide Sound;
    TouchKeepsSound(q, MarkFailing(q, id, due), id);
    TouchKeepsSound(q, MarkDeadLetter(q, id, error), id);
  }

  lemma TerminalKeeps(q: Queue, id: string, receipt: Receipt)
    requires Sound(q)
    ensures Touches(q, MarkTerminal(q, id, receipt), id) && Sound(MarkTerminal(q, id, receipt))
  {
    hide Sound;
    TouchKeepsSound(q, MarkTerminal(q, id, receipt), id);
  }

  lemma TouchKeepsSound(q: Queue, q': Queue, id: string)
    requires Sound(q)
    ensures Touches(q, q', id) ==> Sound(q')
  {
  }

  lemma {:induction false} SettleAllKeeps(q: Queue, batch: seq<string>, response: PushResponse, backoff: Backoff)
    requires Sound(q) && (batch == [] || !response.Unreadable?)
    ensures var q' := SettleAll(q, batch, response, backoff);
      && Sound(q') && q'.entries.Keys == q.entries.Keys && q'.counter == q.counter
      && (forall id <- q.entries | id !in batch :: q'.entries[id] == q.entries[id])
      && (forall id <- q.receipts | id !in batch :: id in q'.receipts && q'.receipts[id] == q.receipts[id])
      && (forall id <- q.receipts :: id in q'.receipts)
      && (forall id <- batch | id in q.entries :: q'.entries[id].state != InFlight)
  {
    hide Settle, Sound;
    if batch != [] {
      var n := |batch| - 1;
      SettleAllKeeps(q, batch[..n], response, backoff);
      SettleKeeps(SettleAll(q, batch[..n], response, backoff), batch[n], response, backoff);
      assert batch == batch[..n] + [batch[n]];
    }
  }

  lemma MarkingKeepsSound(q: Queue, batch: seq<string>)
    requires Sound(q)
    ensures Sound(MarkInFlight(q, batch)) && Sound(CleanedUp(q)) && Sound(Reopened(q))
  {
    hide Sound;
    SubsetIsSound(q, MarkInFlight(q, batch));
    SubsetIsSound(q, CleanedUp(q));
    SubsetIsSound(q, Reopened(q));
  }

  lemma SubsetIsSound(q: Queue, q': Queue)
    requires Sound(q) && q'.receipts == q.receipts && q'.counter == q.counter
    requires forall id <- q'.entries ::
      id in q.entries && q'.entries[id].seqNo == q.entries[id].seqNo && (q'.entries[id].state.Settled() ==> q.entries[id].state.Settled())
    ensures Sound(q')
  {
  }

  lemma BatchIsUnsettled(q: Queue, batch: seq<string>, now: real, id: string)
    requires IsBatch(q, batch, now) && id in batch
    ensures id in q.entries && q.entries[id].state.Sendable()
  {
  }

  lemma PushKeeps(q: Queue, batch: seq<string>, prefix: seq<string>, now: real, response: PushResponse, backoff: Backoff)
    requires Sound(q) && IsBatch(q, batch, now) && (forall id <- prefix :: id in batch) && (prefix == [] || !response.Unreadable?)
    ensures var sent := MarkInFlight(q, batch);
      && Sound(SettleAll(sent, prefix, response, backoff)) && Keeps(q, SettleAll(sent, prefix, response, backoff))
      && Sound(sent) && Keeps(q, sent)
  {
    var sent := MarkInFlight(q, batch);
    MarkingKeepsSound(q, batch);
    SettleAllKeeps(sent, prefix, response, backoff);
    hide Sound, SettleAll, Listed, Keeps;
    forall id | id in batch ensures id in q.entries && q.entries[id].state.Sendable() {
      BatchIsUnsettled(q, batch, now, id);
    }
    BatchChangeKeeps(q, sent, batch);
    BatchChangeKeeps(q, SettleAll(sent, prefix, response, backoff), batch);
  }

  lemma BatchChangeKeeps(q: Queue, q': Queue, batch: seq<string>)
    requires q'.entries.Keys == q.entries.Keys && forall id <- batch :: id in q.entries && q.entries[id].state.Sendable()
    requires forall id <- q.entries | id !in batch :: q'.entries[id] == q.entries[id]
    requires forall id <- q.receipts :: id in q'.receipts && (id !in batch ==> q'.receipts[id] == q.receipts[id])
    ensures Keeps(q, q')
  {
  }

  lemma ReopenKeeps(q: Queue, middle: Queue)
    requires Sound(middle) && Keeps(q, middle)
    ensures Sound(Reopened(middle)) && Keeps(q, Reopened(middle))
  {
    MarkingKeepsSound(middle, []);
    hide Sound;
  }

  lemma ActionKeeps(q: Queue, a: Action)
    requires Sound(q)
    ensures Sound(Do(q, a)) && Keeps(q, Do(q, a))
  {
    hide Keeps, Sound, SettleAll, Pushed, Enqueued, MarkInFlight, CleanedUp, Reopened, IsBatch;
    match a
    case Enqueueing(id, workspace) => EnqueueKeeps(q, id, workspace);
    case Pushing(batch, now, response, backoff) =>
      if IsBatch(q, batch, now) { PushedKeeps(q, batch, now, response, backoff); } else { KeepsItself(q); }
    case CrashedPush(batch, now, response, backoff, settled) =>
      if IsBatch(q, batch, now) && Reaches(batch, response, settled) {
        PushKeeps(q, batch, batch[..settled], now, response, backoff);
        ReopenKeeps(q, SettleAll(MarkInFlight(q, batch), batch[..settled], response, backoff));
      } else {
        KeepsItself(q);
      }
    case CleaningUp => CleaningKeeps(q);
    case Reopening => KeepsItself(q); ReopenKeeps(q, q);
  }

  lemma EnqueueKeeps(q: Queue, id: string, workspace: string)
    requires Sound(q)
    ensures Sound(Do(q, Enqueueing(id, workspace))) && Keeps(q, Do(q, Enqueueing(id, workspace)))
  {
  }

  lemma CleaningKeeps(q: Queue)
    requires Sound(q)
    ensures Sound(CleanedUp(q)) && Keeps(q, CleanedUp(q))
  {
    MarkingKeepsSound(q, []);
  }

  lemma PushedKeeps(q: Queue, batch: seq<string>, now: real, response: PushResponse, backoff: Backoff)
    requires Sound(q) && IsBatch(q, batch, now)
    ensures Sound(Pushed(q, batch, response, backoff)) && Keeps(q, Pushed(q, batch, response, backoff))
  {
    hide Sound, Keeps, SettleAll, IsBatch;
    PushKeeps(q, batch, if Raises(response) then [] else batch, now, response, backoff);
  }

  lemma KeepsItself(q: Queue)
    ensures Keeps(q, q)
  {
  }

  // ---- the promises

  /** Every event ever enqueued is still in the outbox or has its receipt, whatever the gateway answered and
      wherever the process crashed. */
  lemma {:induction false} NothingIsLost(q: Queue, actions: seq<Action>, id: string)
    requires Sound(q) && (id in q.entries || id in q.receipts)
    ensures Sound(Run(q, actions)) && (id in Run(q, actions).entries || id in Run(q, actions).receipts)
    decreases |actions|
  {
    if actions != [] {
      ActionKeeps(q, actions[0]);
      hide Sound, Do;
      NothingIsLost(Do(q, actions[0]), actions[1..], id);
    }
  }

  /** The queue accepts a prepared event unless its id is still queued: the counter never repeats a number. */
  lemma EnqueueAccepts(q: Queue, id: string, workspace: string)
    requires Sound(q) && id != ""
    ensures id in Do(q, Enqueueing(id, workspace)).entries
    ensures id !in q.entries ==> Do(q, Enqueueing(id, workspace)).entries[id] == Entry(q.counter + 1, workspace, Waiting, 0, None)
  {
  }

  /** A push leaves an event of its batch in flight exactly when the answer cannot be read or demands a reset without an
      epoch. */
  lemma InFlightOnlyAfterBadAnswer(q: Queue, batch: seq<string>, now: real, response: PushResponse, backoff: Backoff, id: string)
    requires Sound(q) && IsBatch(q, batch, now) && id in batch
    ensures id in Pushed(q, batch, response, backoff).entries
    ensures Pushed(q, batch, response, backoff).entries[id].state == InFlight <==> Raises(response)
  {
    MarkingKeepsSound(q, batch);
    if !Raises(response) { SettleAllKeeps(MarkInFlight(q, batch), batch, response, backoff); }
    BatchIsUnsettled(q, batch, now, id);
    hide SettleAll, Sound;
  }

  predicate Reenqueues(a: Action, id: string) {
    a.Enqueueing? && a.id == id
  }

  predicate EverSent(q: Queue, actions: seq<Action>, id: string)
    decreases |actions|
  {
    actions != [] && (id in Sent(q, actions[0]) || EverSent(Do(q, actions[0]), actions[1..], id))
  }

  /** Acknowledged, dead-lettered or already cleaned up. */
  ghost predicate Finished(q: Queue, id: string) {
    id in q.receipts && (id in q.entries ==> q.entries[id].state.Settled())
  }

  lemma FinishedIsNotSent(q: Queue, a: Action, id: string)
    requires Sound(q) && Finished(q, id) && !Reenqueues(a, id)
    ensures id !in Sent(q, a)
    ensures Finished(Do(q, a), id) && Do(q, a).receipts[id] == q.receipts[id]
  {
    ActionKeeps(q, a);
    FinishedIsNotListed(q, a, id);
    if id !in q.entries { KeysOnlyByEnqueue(q, a, id); }
    hide Sound, Do, Sent;
  }

  lemma FinishedIsNotListed(q: Queue, a: Action, id: string)
    requires Finished(q, id)
    ensures id !in Sent(q, a)
  {
  }

  lemma KeysOnlyByEnqueue(q: Queue, a: Action, id: string)
    requires Sound(q) && !Reenqueues(a, id) && id !in q.entries
    ensures id !in Do(q, a).entries
  {
    hide Settle, SettleAll, Sound, IsBatch;
    match a
    case Pushing(batch, now, response, backoff) =>
      MarkingKeepsSound(q, batch);
      if !Raises(response) { SettleAllKeeps(MarkInFlight(q, batch), batch, response, backoff); }
    case CrashedPush(batch, now, response, backoff, settled) =>
      MarkingKeepsSound(q, batch);
      if Reaches(batch, response, settled) { SettleAllKeeps(MarkInFlight(q, batch), batch[..settled], response, backoff); }
    case _ =>
  }

  /** A finished event is never sent again and its receipt never changes, unless its id is enqueued anew. */
  lemma {:induction false} FinishedStaysFinished(q: Queue, actions: seq<Action>, id: string)
    requires Sound(q) && Finished(q, id) && forall i | 0 <= i < |actions| :: !Reenqueues(actions[i], id)
    ensures !EverSent(q, actions, id)
    ensures Finished(Run(q, actions), id) && Run(q, actions).receipts[id] == q.receipts[id]
    decreases |actions|
  {
    if actions != [] {
      FinishedIsNotSent(q, actions[0], id);
      ActionKeeps(q, actions[0]);
      hide Sound, Finished, Do, Sent;
      FinishedStaysFinished(Do(q, actions[0]), actions[1..], id);
    }
  }

  /** One complete push: the rest of the queue is untouched and nothing of the batch stays in flight. */
  lemma PushEffect(q: Queue, batch: seq<string>, now: real, response: PushResponse, backoff: Backoff)
    requires Sound(q) && IsBatch(q, batch, now)
    ensures var q' := Pushed(q, batch, response, backoff);
      && Sound(q') && q'.entries.Keys == q.entries.Keys
      && (forall id <- q.entries | id !in batch :: q'.entries[id] == q.entries[id])
      && (!Raises(response) ==> forall id <- batch | id in q.entries :: q'.entries[id].state != InFlight)
  {
    MarkingKeepsSound(q, batch);
    if !Raises(response) { SettleAllKeeps(MarkInFlight(q, batch), batch, response, backoff); }
    hide Sound, SettleAll;
  }

  lemma {:induction false} RunExtends(q: Queue, actions: seq<Action>, a: Action)
    ensures Run(q, actions + [a]) == Do(Run(q, actions), a)
    decreases |actions|
  {
    hide Do;
    if actions == [] {
      assert [] + [a] == [a] && [a][1..] == [];
    } else {
      assert (actions + [a])[1..] == actions[1..] + [a];
      RunExtends(Do(q, actions[0]), actions[1..], a);
    }
  }
}
