/**
  The services that drive the store: request handling (internal/transaction/service.go,
  internal/funding/service.go), the dead-letter recorder (internal/deadletter/recorder.go)
  and operator actions (internal/operations/service.go). Other transactions may commit
  between two store calls of a request or of an operator action.
 */
module Services {
  import opened Domain
  import opened Tables
  import opened Messages
  import opened Payments
  import opened DeadLetters
  import opened Handlers
  import opened Requests
  import opened Invariants
  import opened Database

  /** The topics of the broker. A publish may fail, and may have been accepted all the same. */
  class Topics {
    var log: seq<(Topic, Message)>

    constructor ()
      ensures log == []
    {
      log := [];
    }

    method PublishMessage(topic: Topic, m: Message) returns (acked: bool)
      modifies this
      ensures acked ==> log == old(log) + [(topic, m)]
      ensures !acked ==> log == old(log) || log == old(log) + [(topic, m)]
    {
      var accepted: bool := *;
      if accepted {
        log := log + [(topic, m)];
      }
      var reported: bool := *;
      acked := accepted && reported;
    }
  }

  /** Other transactions commit meanwhile. They may do to the tables what every run of the pipeline keeps to. */
  method Elsewhere(store: Store)
    modifies store
    ensures Grows(old(store.Contents()), store.Contents())
  {
    var after: Db := *;
    if Grows(store.Contents(), after) {
      store.transactions, store.paymentKeys, store.depositKeys := after.transactions, after.paymentKeys, after.depositKeys;
      store.outbox, store.processed, store.ledger := after.outbox, after.processed, after.ledger;
      store.deadLetters, store.attempts, store.actions := after.deadLetters, after.attempts, after.actions;
      assert store.Contents() == after;
    }
  }

  // ----- requests -----

  /** What a caller learns: the stored answer to the same request, or that the key stands for another one. */
  predicate Told<R(==)>(keys: map<Id, KeyRow<R>>, key: Id, hash: string, r: Result<R>) {
    && (r.Ok? ==> key in keys && keys[key].requestHash == hash && keys[key].response == r.value)
    && (r == Err(IdempotencyConflict) ==> key in keys && keys[key].requestHash != hash)
    && (r == Err(ExternalReferenceConflict) ==> key !in keys)
  }

  method CreateTransaction(store: Store, request: PaymentRequest, rawKey: string, correlation: Id, txId: Id, eventId: Id, now: int)
    returns (r: Result<PaymentResponse>)
    modifies store
    ensures var key, valid := TrimSpace(rawKey), ValidatePayment(request, TrimSpace(rawKey));
            if valid.Err? then r == Err(InvalidRequest) && store.Contents() == old(store.Contents())
            else Told(store.paymentKeys, key, RequestText(PaymentDraft(valid.value, txId, correlation)), r)
    ensures KeysGrow(old(store.paymentKeys), store.paymentKeys)
  {
    var key := TrimSpace(rawKey);
    var valid := ValidatePayment(request, key);
    if valid.Err? {
      return Err(valid.error);
    }
    var tx := PaymentDraft(valid.value, txId, correlation);
    var hash := RequestText(tx);
    if key in store.paymentKeys {
      var row := store.paymentKeys[key];
      return if row.requestHash != hash then Err(IdempotencyConflict) else Ok(row.response);
    }
    Elsewhere(store);
    r := store.Create(key, hash, tx, eventId, now);
    if r == Err(IdempotencyConflict) {
      Elsewhere(store);
      if key in store.paymentKeys && store.paymentKeys[key].requestHash == hash {
        return Ok(store.paymentKeys[key].response);
      }
    }
  }

  method DepositFunds(store: Store, request: DepositRequest, rawKey: string, rawCorrelation: string, trace: Id,
                      reason: string, maxAmount: int, txId: Id, eventId: Id, now: int)
    returns (r: Result<DepositResponse>)
    modifies store
    ensures var correlation := if TrimSpace(rawCorrelation) == "" then trace else TrimSpace(rawCorrelation);
            var valid := ValidateDeposit(request, rawKey, correlation, reason, if maxAmount <= 0 then 100_000_000 else maxAmount);
            if valid.Err? then r == Err(InvalidRequest) && store.Contents() == old(store.Contents())
            else Told(store.depositKeys, TrimSpace(rawKey), RequestText(DepositDraft(valid.value, txId, correlation)), r)
    ensures KeysGrow(old(store.depositKeys), store.depositKeys)
  {
    var key, correlation := TrimSpace(rawKey), TrimSpace(rawCorrelation);
    if correlation == "" {
      correlation := trace;
    }
    var valid := ValidateDeposit(request, rawKey, correlation, reason, if maxAmount <= 0 then 100_000_000 else maxAmount);
    if valid.Err? {
      return Err(valid.error);
    }
    var tx := DepositDraft(valid.value, txId, correlation);
    var hash := RequestText(tx);
    if key in store.depositKeys {
      var row := store.depositKeys[key];
      return if row.requestHash != hash then Err(IdempotencyConflict) else Ok(row.response);
    }
    Elsewhere(store);
    r := InsertDeposit(store, key, hash, tx, eventId, now);
  }

  /** The insert, and the second look at the key if it conflicts. */
  method InsertDeposit(store: Store, key: Id, hash: string, tx: Transaction, eventId: Id, now: int)
    returns (r: Result<DepositResponse>)
    requires NewDeposit(tx)
    modifies store
    ensures Told(store.depositKeys, key, hash, r) && KeysGrow(old(store.depositKeys), store.depositKeys)
  {
    r := store.CreateDeposit(key, hash, tx, eventId, now);
    if r == Err(IdempotencyConflict) || r == Err(ExternalReferenceConflict) {
      Elsewhere(store);
      if key in store.depositKeys {
        var row := store.depositKeys[key];
        return if row.requestHash == hash then Ok(row.response) else Err(IdempotencyConflict);
      }
    }
  }

  // ----- consumers -----

  method HandleTransactionCreated(store: Store, delivery: Delivery, payload: Payload, eventId: Id, now: int) returns (r: Result<bool>)
    modifies store
    ensures var spec := Handlers.HandleTransactionCreated(old(store.Contents()), delivery, payload, eventId, now);
            store.Contents() == After(old(store.Contents()), spec) && r == Reply(spec)
  {
    if payload.RawBytes? {
      return Err(DecodeFailed);
    }
    if !payload.TransactionJson? {
      return Err(IncompleteEvent);
    }
    var tx := payload.transaction;
    if tx.id == "" || tx.account == "" || tx.amount <= 0 || tx.currency == "" || tx.correlation == "" {
      return Err(IncompleteEvent);
    }
    var verdict := EvaluateRisk(tx.amount);
    var event := RiskEvaluated(tx.id, tx.account, tx.amount, tx.currency, verdict.level, verdict.approved, verdict.reason, tx.correlation);
    var row := NewOutboxEvent(eventId, RiskEvaluatedEvent, tx.id, tx.account, tx.correlation, RiskJson(event), now);
    r := store.SaveConsumerOutbox(delivery, Sha256(payload), row, now);
  }

  method HandleRiskEvaluated(store: Store, delivery: Delivery, payload: Payload, eventId: Id, now: int) returns (r: Result<bool>)
    modifies store
    ensures var spec := Handlers.HandleRiskEvaluated(old(store.Contents()), delivery, payload, eventId, now);
            store.Contents() == After(old(store.Contents()), spec) && r == Reply(spec)
  {
    if payload.RawBytes? {
      return Err(DecodeFailed);
    }
    if !payload.RiskJson? {
      return Err(IncompleteEvent);
    }
    var event := payload.risk;
    if event.txId == "" || event.account == "" || event.amount <= 0 || event.currency == "" {
      return Err(IncompleteEvent);
    }
    if event.approved && event.level != Low {
      return Err(RiskLevelMismatch);
    }
    if !event.approved && event.level != High {
      return Err(RiskLevelMismatch);
    }
    r := store.ProcessRiskEvaluated(delivery, Sha256(payload), event, eventId, now);
  }

  // ----- dead letters -----

  /** What a move may leave of the record: refreshed, and published at most once. */
  predicate RowMoved(before: DeadLetter, row: DeadLetter, now: int, published: int) {
    && row == before.(lastFailedAt := now, kafkaPublishedAt := row.kafkaPublishedAt)
    && (row.kafkaPublishedAt == before.kafkaPublishedAt
        || (before.kafkaPublishedAt.None? && row.kafkaPublishedAt == Some(published)))
  }

  /** The record that a move starts from. */
  function RecordBefore(dead: map<Source, DeadLetter>, source: Source, m: Message, now: int): DeadLetter {
    if source in dead then dead[source] else RecordFromMessage(source, m, now)
  }

  /**
    A statement that may not reach the database, or may be carried out although its
    answer is lost.
   */
  method Reaches() returns (applied: bool, answered: bool)
    ensures answered ==> applied
  {
    applied := *;
    answered := *;
    answered := answered && applied;
  }

  /** Recorder.Move: stores the record, then copies the message to the dead-letter topic once. */
  method MoveToDeadLetter(store: Store, topics: Topics, source: Source, deadLetterTopic: Topic, m: Message,
                          extra: seq<Header>, now: int, published: int)
    returns (ok: bool)
    modifies store`deadLetters, topics
    ensures var before := RecordBefore(old(store.deadLetters), source, m, now);
            var copy := (deadLetterTopic, m.(headers := m.headers + extra));
            // success: a durable record, and one copy on the topic over all successful moves
            && (ok ==>
                  && source in store.deadLetters && RowMoved(before, store.deadLetters[source], now, published)
                  && store.deadLetters[source].kafkaPublishedAt.Some?
                  && topics.log == if before.kafkaPublishedAt.Some? then old(topics.log) else old(topics.log) + [copy])
            // failure: nothing, or a refreshed record; a copy only of a recorded, unmarked message
            && (!ok ==>
                  || (store.deadLetters == old(store.deadLetters) && topics.log == old(topics.log))
                  || (source in store.deadLetters && RowMoved(before, store.deadLetters[source], now, published)
                      && (topics.log == old(topics.log) || (before.kafkaPublishedAt.None? && topics.log == old(topics.log) + [copy]))))
    ensures forall s :: s != source ==> (s in store.deadLetters <==> s in old(store.deadLetters))
    ensures forall s :: s != source && s in store.deadLetters ==> store.deadLetters[s] == old(store.deadLetters)[s]
  {
    var record := RecordFromMessage(source, m, now);
    var applied, answered := Reaches();
    if !applied {
      return false;
    }
    var stored := store.UpsertDeadLetter(record);
    if !answered {
      return false;
    }
    if stored.kafkaPublishedAt.Some? {
      return true;
    }
    var acked := topics.PublishMessage(deadLetterTopic, m.(headers := m.headers + extra));
    if !acked {
      return false;
    }
    applied, answered := Reaches();
    if !applied {
      return false;
    }
    var marked := store.MarkDeadLetterPublished(source, published);
    return answered && marked.Ok?;
  }

  // ----- operators -----

  /** A transaction: the tables it found and the tables it left. */
  datatype Commit = Commit(before: Db, after: Db)

  /**
    What a replay did while others worked on: the tables that its inbox check saw, its two
    transactions, and what it sent between them.
   */
  datatype Replay = Replay(checked: Db, started: Option<Commit>, sent: seq<(Topic, Message)>, acked: bool, finished: Option<Commit>)

  /** The record is closed and the replay counted and audited, once. */
  predicate Counted(before: Db, after: Db, source: Source, attempt: Id) {
    && source in before.deadLetters && before.deadLetters[source].state == Open
    && attempt in before.attempts && before.attempts[attempt].result == AttemptPending
    && var row := before.deadLetters[source];
       after == before.(deadLetters := before.deadLetters[source := row.(state := Republished, replayCount := row.replayCount + 1)],
                        attempts := before.attempts[attempt := before.attempts[attempt].(result := AttemptPublished)],
                        actions := before.actions + [ReplayAudit(source)])
  }

  /** Only the attempt is written off. */
  predicate WrittenOff(before: Db, after: Db, attempt: Id) {
    && attempt in before.attempts && before.attempts[attempt].result == AttemptPending
    && after == before.(attempts := before.attempts[attempt := before.attempts[attempt].(result := AttemptFailed)])
  }

  predicate IsStale(a: Attempt, source: Source, now: int) {
    a.deadLetter == source && a.result == AttemptPending && a.createdAt < now - STALE_REPLAY
  }

  /** A new attempt, the only pending one on an open record. Attempts too old are failed, and nothing else changes. */
  predicate Begun(before: Db, after: Db, source: Source, attempt: Id, now: int) {
    && source in before.deadLetters && before.deadLetters[source].state == Open
    && after == before.(attempts := after.attempts)
    && after.attempts.Keys == before.attempts.Keys + {attempt}
    && attempt !in before.attempts && after.attempts[attempt] == Attempt(source, AttemptPending, now)
    && forall a :: a in before.attempts ==>
         && after.attempts[a] == (if IsStale(before.attempts[a], source, now) then before.attempts[a].(result := AttemptFailed)
                                  else before.attempts[a])
         && !(after.attempts[a].deadLetter == source && after.attempts[a].result == AttemptPending)
  }

  /** The order of a replay: found replayable, checked, started, sent, finished. */
  predicate InOrder(found: Db, replay: Replay, source: Source, attempt: Id, window: int, clock: int, now: int) {
    if replay.started.None? then replay.sent == [] && replay.finished.None?
    else
      && MayReplay(found, source, window, clock) && Grows(found, replay.checked) && Unprocessed(replay.checked, source)
      && Grows(replay.checked, replay.started.value.before)
      && Begun(replay.started.value.before, replay.started.value.after, source, attempt, now)
      && (replay.sent == [] || replay.sent == [(source.topic, ReplayMessage(found.deadLetters[source]))])
      && (replay.acked ==> replay.sent != [])
      && (replay.finished.Some? ==>
            && Grows(replay.started.value.after, replay.finished.value.before)
            && if replay.acked then Counted(replay.finished.value.before, replay.finished.value.after, source, attempt)
               else WrittenOff(replay.finished.value.before, replay.finished.value.after, attempt))
  }

  /** The record as `ReplayDeadLetter` first reads it. */
  predicate MayReplay(db: Db, source: Source, window: int, clock: int) {
    source in db.deadLetters && CheckReplay(db.deadLetters[source], ReplayWindow(window), clock).Ok?
  }

  /** Open, but out of the replay window. */
  predicate TooOld(db: Db, source: Source, window: int, clock: int) {
    && source in db.deadLetters && db.deadLetters[source].state == Open
    && db.deadLetters[source].firstFailedAt < clock - ReplayWindow(window)
  }

  predicate Unprocessed(db: Db, source: Source) {
    source in db.deadLetters && (db.deadLetters[source].eventId.Some? ==> !EventProcessed(db, db.deadLetters[source].eventId.value))
  }

  /** The second half of a replay: the message, and then the end of the attempt. */
  method SendReplay(store: Store, topics: Topics, found: DeadLetter, source: Source, attempt: Id)
    returns (r: Result<DeadLetter>, ghost sent: seq<(Topic, Message)>, ghost acked: bool, ghost finished: Option<Commit>)
    modifies store, topics
    ensures topics.log == old(topics.log) + sent
    ensures sent == [] || sent == [(source.topic, ReplayMessage(found))]
    ensures acked ==> sent != []
    ensures finished.Some? ==>
              && Grows(old(store.Contents()), finished.value.before) && finished.value.after == store.Contents()
              && if acked then Counted(finished.value.before, finished.value.after, source, attempt)
                 else WrittenOff(finished.value.before, finished.value.after, attempt)
    ensures r.Ok? ==> acked && finished.Some? && r.value == found.(state := Republished, replayCount := found.replayCount + 1)
    ensures r == Err(PublishFailed) <==> !acked
    ensures r.Err? ==> r.error in {PublishFailed, Unavailable, NoPendingAttempt, InvalidState}
  {
    var published := topics.PublishMessage(source.topic, ReplayMessage(found));
    sent, acked, finished := topics.log[|old(topics.log)|..], published, None;
    Elsewhere(store);
    var applied, answered := Reaches();
    var ended := Err(Unavailable);
    if applied {
      ghost var before := store.Contents();
      ended := store.FinishDeadLetterReplay(attempt, source, published);
      if ended.Ok? {
        finished := Some(Commit(before, store.Contents()));
      }
    }
    if !published {
      return Err(PublishFailed), sent, acked, finished;
    }
    if !answered {
      return Err(Unavailable), sent, acked, finished;
    }
    if ended.Err? {
      return Err(ended.error), sent, acked, finished;
    }
    return Ok(found.(state := Republished, replayCount := found.replayCount + 1)), sent, acked, finished;
  }

  lemma StartsBegun(db: Db, source: Source, attempt: Id, now: int)
    requires StartReplay(db, source, attempt, now).Ok?
    ensures Begun(db, StartReplay(db, source, attempt, now).value.0, source, attempt, now)
  {
  }

  /** The reads of a replay. */
  method CheckReplayRequest(store: Store, source: Source, reason: string, window: int, clock: int)
    returns (r: Result<DeadLetter>, ghost checked: Db)
    modifies store
    ensures Grows(old(store.Contents()), checked) && (r.Ok? ==> store.Contents() == checked) && r != Err(PublishFailed)
    ensures var found := old(store.Contents());
            && (r.Ok? <==> ValidReason(reason) && MayReplay(found, source, window, clock) && Unprocessed(checked, source))
            && (r.Ok? ==> r.value == found.deadLetters[source])
            && (r == Err(InvalidReason) <==> !ValidReason(reason))
            && (r == Err(NotFound) <==> ValidReason(reason) && source !in found.deadLetters)
            && (r == Err(ReplayWindowExpired) <==> ValidReason(reason) && TooOld(found, source, window, clock))
            && (r == Err(AlreadyProcessed) <==> ValidReason(reason) && MayReplay(found, source, window, clock) && !Unprocessed(checked, source))
  {
    checked := store.Contents();
    var valid := CheckReason(reason);
    if !valid {
      return Err(InvalidReason), checked;
    }
    if source !in store.deadLetters {
      return Err(NotFound), checked;
    }
    var found := store.deadLetters[source];
    var check := CheckReplay(found, ReplayWindow(window), clock);
    if check.Err? {
      return Err(check.error), checked;
    }
    Elsewhere(store);
    checked := store.Contents();
    if found.eventId.Some? && EventProcessed(store.Contents(), found.eventId.value) {
      return Err(AlreadyProcessed), checked;
    }
    return Ok(found), checked;
  }

  /** The first transaction of a replay. */
  method BeginReplay(store: Store, source: Source, attempt: Id, now: int) returns (r: Result<()>, ghost started: Option<Commit>)
    modifies store
    ensures started.Some? ==>
              && Grows(old(store.Contents()), started.value.before) && store.Contents() == started.value.after
              && Begun(started.value.before, started.value.after, source, attempt, now)
    ensures r.Ok? ==> started.Some?
    ensures r.Err? ==> r.error == Unavailable || (r.error == InvalidState && started.None?)
  {
    started := None;
    Elsewhere(store);
    var applied, answered := Reaches();
    r := Err(Unavailable);
    if applied {
      ghost var before := store.Contents();
      r := store.StartDeadLetterReplay(source, attempt, now);
      if r.Ok? {
        StartsBegun(before, source, attempt, now);
        started := Some(Commit(before, store.Contents()));
      }
    }
    if !answered {
      r := Err(Unavailable);
    }
  }

  /** The record stays open until the replay closes it, so the counter that was read is still the counter. */
  lemma AnswerAgrees(found: Db, replay: Replay, source: Source, attempt: Id, window: int, clock: int, now: int)
    requires InOrder(found, replay, source, attempt, window, clock, now)
    requires replay.started.Some? && replay.acked && replay.finished.Some?
    ensures source in found.deadLetters && source in replay.finished.value.after.deadLetters
    ensures var row, stored := found.deadLetters[source], replay.finished.value.after.deadLetters[source];
            var answer := row.(state := Republished, replayCount := row.replayCount + 1);
            DeadLetterGrows(answer, stored) && answer.state == stored.state
  {
    assert DeadLetterGrows(replay.started.value.after.deadLetters[source], replay.finished.value.before.deadLetters[source]);
  }

  /**
    `ReplayDeadLetter`, with other transactions between its statements and with answers that
    get lost. A refused request sends and writes nothing; the recorded message is sent at most
    once; success means that it was sent and counted once, and the answer agrees with the
    record that is stored.
   */
  method ReplayDeadLetter(store: Store, topics: Topics, source: Source, reason: string, window: int, attempt: Id, clock: int, now: int)
    returns (r: Result<DeadLetter>, ghost replay: Replay)
    modifies store, topics
    ensures InOrder(old(store.Contents()), replay, source, attempt, window, clock, now)
    ensures replay.started.Some? ==> ValidReason(reason)
    ensures topics.log == old(topics.log) + replay.sent
    ensures r.Ok? ==>
              && replay.started.Some? && replay.acked && replay.finished.Some? && store.Contents() == replay.finished.value.after
              && DeadLetterGrows(r.value, store.deadLetters[source]) && r.value.state == store.deadLetters[source].state
    ensures r == Err(PublishFailed) ==> replay.started.Some? && !replay.acked
    ensures r == Err(InvalidReason) <==> !ValidReason(reason)
    ensures r == Err(NotFound) <==> ValidReason(reason) && source !in old(store.deadLetters)
    ensures r == Err(ReplayWindowExpired) <==> ValidReason(reason) && TooOld(old(store.Contents()), source, window, clock)
    ensures r == Err(AlreadyProcessed) <==>
              ValidReason(reason) && MayReplay(old(store.Contents()), source, window, clock) && !Unprocessed(replay.checked, source)
  {
    var found, checked := CheckReplayRequest(store, source, reason, window, clock);
    replay := Replay(checked, None, [], false, None);
    if found.Err? {
      return Err(found.error), replay;
    }
    var begun, started := BeginReplay(store, source, attempt, now);
    replay := replay.(started := started);
    if begun.Err? {
      return Err(begun.error), replay;
    }
    ghost var sent, acked, finished;
    r, sent, acked, finished := SendReplay(store, topics, found.value, source, attempt);
    replay := replay.(sent := sent, acked := acked, finished := finished);
    if r.Ok? {
      AnswerAgrees(old(store.Contents()), replay, source, attempt, window, clock, now);
    }
  }

  predicate IsParked(outbox: map<Id, OutboxRow>, e: Id) {
    e in outbox && outbox[e].status == OutboxDeadLettered
  }

  /**
    `RequeueOutbox`, with other transactions between the look at the row and its update. Both
    must find the row dead-lettered.
   */
  method RequeueOutbox(store: Store, e: Id, reason: string, now: int) returns (r: Result<OutboxStatus>, ghost commit: Commit)
    modifies store
    ensures Grows(old(store.Contents()), commit.before) && store.Contents() == commit.after
    ensures var found, before := old(store.outbox), commit.before;
            match r
            case Ok(status) =>
              && ValidReason(reason) && IsParked(found, e) && IsParked(before.outbox, e) && status == OutboxPending
              && commit.after == before.(outbox := before.outbox[e := before.outbox[e].(status := OutboxPending, attempts := 0, updatedAt := now)],
                                         actions := before.actions + [RequeueAudit(e)])
            case Err(error) =>
              && commit.after == before
              && (error == InvalidReason <==> !ValidReason(reason))
              && (error == NotFound <==> ValidReason(reason) && e !in found)
              && (error == InvalidState <==>
                    ValidReason(reason) && e in found && !(IsParked(found, e) && IsParked(before.outbox, e)))
  {
    commit := Commit(store.Contents(), store.Contents());
    var valid := CheckReason(reason);
    if !valid {
      return Err(InvalidReason), commit;
    }
    if e !in store.outbox {
      return Err(NotFound), commit;
    }
    if store.outbox[e].status != OutboxDeadLettered {
      return Err(InvalidState), commit;
    }
    Elsewhere(store);
    ghost var before := store.Contents();
    var requeued := store.RequeueOutbox(e, now);
    commit := Commit(before, store.Contents());
    if requeued.Err? {
      return Err(requeued.error), commit;
    }
    return Ok(OutboxPending), commit;
  }
}
