/** The inductive invariant of the pipeline, over every run. */
module PipelineTheorems {
  import opened Domain
  import opened Tables
  import opened Messages
  import opened DeadLetters
  import opened Invariants
  import opened Pipeline
  import opened PipelineInvariant
  import opened PipelineSteps
  import opened Preservation
  import opened Payments

  // ----- what a step does to the database -----

  datatype Change =
    | Same
    | Pay(key: Id, hash: string, tx: Transaction, eventId: Id, now: int)
    | Fund(key: Id, hash: string, tx: Transaction, eventId: Id, now: int)
    | Deliver(origin: Id, eventId: Id, now: int)
    | Lease
    | Requeue(event: Id)
    | Store(record: DeadLetter)
    | Mark(source: Source, now: int)
    | Start(source: Source, attempt: Id, now: int)
    | Finish(attempt: Id, source: Source, published: bool)
    | Trim(cutoff: int, victims: set<InboxKey>)

  /** Only lease columns of existing rows moved, and the lease invariant survived. */
  ghost predicate LeaseOnly(db: Db, db': Db, maxAttempts: int) {
    && OutboxGrows(db.outbox, db'.outbox) && db'.outbox.Keys == db.outbox.Keys
    && (LeaseOk(db.outbox, maxAttempts) ==> LeaseOk(db'.outbox, maxAttempts))
  }

  ghost predicate Changed(db: Db, db': Db, change: Change, maxAttempts: int) {
    match change
    case Same => db' == db
    case Pay(key, hash, tx, eventId, now) =>
      NewPayment(tx) && tx.id != "" && eventId != "" && db' == After(db, CreatePayment(db, key, hash, tx, eventId, now))
    case Fund(key, hash, tx, eventId, now) =>
      NewDeposit(tx) && tx.id != "" && eventId != "" && db' == After(db, CreateDeposit(db, key, hash, tx, eventId, now))
    case Deliver(e, eventId, now) => e in db.outbox && eventId != "" && Handled(db, db', e, eventId, now)
    case Lease => db' == db.(outbox := db'.outbox) && LeaseOnly(db, db', maxAttempts)
    case Requeue(e) =>
      db' == db.(outbox := db'.outbox, actions := db.actions + [RequeueAudit(e)]) && LeaseOnly(db, db', maxAttempts)
    case Store(record) => record.state == Open && record.replayCount == 0 && db' == Upsert(db, record)
    case Mark(source, now) => db' == After(db, MarkDeadLetterPublished(db, source, now))
    case Start(source, attempt, now) => db' == After(db, StartReplay(db, source, attempt, now))
    case Finish(attempt, source, published) =>
      && (attempt in db.attempts ==> db.attempts[attempt].deadLetter == source)
      && db' == After(db, FinishReplay(db, attempt, source, published))
    case Trim(cutoff, victims) => db' == Prune(db, cutoff, victims)
  }

  ghost predicate LogsMatch(s: State) {
    forall p, o :: 0 <= o < |Log(s, p)| ==> EntryOk(s, p, o)
  }

  lemma DeliveryChange(s: State, p: Place, o: nat, eventId: Id, now: int, maxAttempts: int) returns (change: Change)
    requires RowsOk(s.db.transactions, s.db.outbox) && LogsMatch(s) && o < |Log(s, p)| && eventId != ""
    ensures Changed(s.db, After(s.db, Delivered(s, p, o, eventId, now)), change, maxAttempts)
    ensures change.Same? || (change.Deliver? && change.now == now)
  {
    if Delivered(s, p, o, eventId, now).Ok? {
      assert EntryOk(s, p, o);
      DeliveryHandled(s, p, o, eventId, now);
      change := Deliver(Log(s, p)[o].origin, eventId, now);
    } else {
      change := Same;
    }
  }

  lemma PublisherChange(c: Config, s: State, s': State, pub: Id, action: PublisherAction)
    requires PublisherNext(c, s, s', pub, action) && c.maxAttempts >= 1
    ensures Changed(s.db, s'.db, Lease, c.maxAttempts)
  {
  }

  lemma SessionChange(s: State, s': State, p: Place, action: SessionAction, maxAttempts: int) returns (change: Change)
    requires SessionNext(s, s', p, action) && RowsOk(s.db.transactions, s.db.outbox) && LogsMatch(s)
    ensures Changed(s.db, s'.db, change, maxAttempts)
    ensures change.Deliver? ==> HandlerClock(SessionStep(p, action)) == Some(change.now)
    ensures !change.Trim? && !change.Lease? && !change.Requeue?
  {
    match action
    case HandleAction(eventId, now, acked) =>
      change := DeliveryChange(s, p, SessionAt(s, p).phase.offset, eventId, now, maxAttempts);
    case RecordAction(now) =>
      var o := SessionAt(s, p).phase.offset;
      change := Store(RecordFromMessage(SourceOf(p, o), Log(s, p)[o].message, now));
    case PublishDeadAction(now) => change := Mark(SourceOf(p, SessionAt(s, p).phase.offset), now);
    case _ => change := Same;
  }

  lemma StrayChange(s: State, s': State, action: StrayAction, maxAttempts: int) returns (change: Change)
    requires StrayNext(s, s', action) && RowsOk(s.db.transactions, s.db.outbox) && LogsMatch(s)
    ensures Changed(s.db, s'.db, change, maxAttempts)
    ensures change.Deliver? ==> HandlerClock(StrayStep(action)) == Some(change.now)
    ensures !change.Trim? && !change.Lease? && !change.Requeue?
  {
    match action
    case StrayHandleAction(p, o, eventId, now) => change := DeliveryChange(s, p, o, eventId, now, maxAttempts);
    case StrayRecordAction(p, o, now) => change := Store(RecordFromMessage(SourceOf(p, o), Log(s, p)[o].message, now));
    case StrayMarkAction(source, now) => change := Mark(source, now);
  }

  lemma OperatorChange(c: Config, s: State, s': State, op: Id, action: OperatorAction) returns (change: Change)
    requires OperatorNext(c, s, s', op, action) && OperatorOk(s, OperatorAt(s, op))
    ensures Changed(s.db, s'.db, change, c.maxAttempts)
    ensures change.Same? || change.Start? || change.Finish?
  {
    var phase := OperatorAt(s, op);
    match action
    case StartAction(attempt, now) => change := Start(phase.source, attempt, now);
    case FinishAction => change := Finish(phase.attempt, phase.source, phase.OpSent?);
    case _ => change := Same;
  }

  lemma MaintenanceChange(c: Config, s: State, s': State, action: MaintenanceAction) returns (change: Change)
    requires MaintenanceNext(c, s, s', action) && c.maxAttempts >= 1
    ensures Changed(s.db, s'.db, change, c.maxAttempts)
    ensures change.Same? || change.Requeue? || (change.Trim? && action.PruneAction? && change.victims == action.victims)
    ensures change.Requeue? ==> action.RequeueAction?
  {
    match action
    case RequeueAction(e, now) => change := if Outbox.Requeue(s.db, e, now).Ok? then Requeue(e) else Same;
    case PruneAction(now, busy, victims) => change := Trim(now - c.keep, victims);
  }

  lemma NextChange(c: Config, s: State, s': State, step: Step) returns (change: Change)
    requires Next(c, s, s', step) && RowsOk(s.db.transactions, s.db.outbox) && LogsMatch(s) && c.maxAttempts >= 1
    requires forall op :: OperatorOk(s, OperatorAt(s, op))
    ensures Changed(s.db, s'.db, change, c.maxAttempts)
    ensures change.Deliver? ==> HandlerClock(step) == Some(change.now)
    ensures change.Trim? ==> step.MaintenanceStep? && step.maintain.PruneAction? && change.victims == step.maintain.victims
    ensures change.Lease? ==> step.PublisherStep?
    ensures change.Requeue? ==> step.MaintenanceStep? && step.maintain.RequeueAction?
  {
    match step
    case RequestStep(action) =>
      match action {
        case PayAction(key, hash, tx, eventId, now) => change := Pay(key, hash, tx, eventId, now);
        case FundAction(key, hash, tx, eventId, now) => change := Fund(key, hash, tx, eventId, now);
      }
    case PublisherStep(pub, action) => PublisherChange(c, s, s', pub, action); change := Lease;
    case SessionStep(p, action) => change := SessionChange(s, s', p, action, c.maxAttempts);
    case StrayStep(action) => change := StrayChange(s, s', action, c.maxAttempts);
    case OperatorStep(op, action) =>
      assert OperatorOk(s, OperatorAt(s, op));
      change := OperatorChange(c, s, s', op, action);
    case MaintenanceStep(action) => change := MaintenanceChange(c, s, s', action);
  }

  // ----- each change keeps each group of the invariant -----

  lemma ChangeMoney(db: Db, db': Db, change: Change, maxAttempts: int)
    requires Changed(db, db', change, maxAttempts) && MoneyOk(db.transactions, db.ledger)
    ensures MoneyOk(db'.transactions, db'.ledger)
  {
    match change
    case Pay(key, hash, tx, eventId, now) => CreatePaymentMoney(db, key, hash, tx, eventId, now);
    case Fund(key, hash, tx, eventId, now) => CreateDepositMoney(db, key, hash, tx, eventId, now);
    case Deliver(e, eventId, now) => HandledMoney(db, db', e, eventId, now);
    case _ =>
      assert db'.transactions == db.transactions && db'.ledger == db.ledger;
  }

  lemma ChangeRequests(db: Db, db': Db, change: Change, maxAttempts: int)
    requires Changed(db, db', change, maxAttempts) && RequestsOk(db.transactions, db.paymentKeys, db.depositKeys)
    ensures RequestsOk(db'.transactions, db'.paymentKeys, db'.depositKeys)
  {
    match change
    case Pay(key, hash, tx, eventId, now) => CreatePaymentRequests(db, key, hash, tx, eventId, now);
    case Fund(key, hash, tx, eventId, now) => CreateDepositRequests(db, key, hash, tx, eventId, now);
    case Deliver(e, eventId, now) => HandledRequests(db, db', e, eventId, now);
    case _ =>
      assert db'.transactions == db.transactions && db'.paymentKeys == db.paymentKeys && db'.depositKeys == db.depositKeys;
  }

  lemma ChangeEvents(db: Db, db': Db, change: Change, maxAttempts: int)
    requires Changed(db, db', change, maxAttempts) && EventsOk(db.transactions, db.outbox, db.processed)
    ensures EventsOk(db'.transactions, db'.outbox, db'.processed)
  {
    match change
    case Pay(key, hash, tx, eventId, now) => CreatePaymentEvents(db, key, hash, tx, eventId, now);
    case Fund(key, hash, tx, eventId, now) => CreateDepositEvents(db, key, hash, tx, eventId, now);
    case Deliver(e, eventId, now) => HandledEvents(db, db', e, eventId, now);
    case Lease => LeaseKeepsEvents(db.transactions, db.outbox, db'.outbox, db.processed);
    case Requeue(_) => LeaseKeepsEvents(db.transactions, db.outbox, db'.outbox, db.processed);
    case Trim(cutoff, victims) => PruneKeeps(db, cutoff, victims);
    case _ =>
      assert db'.transactions == db.transactions && db'.outbox == db.outbox && db'.processed == db.processed;
  }

  lemma ChangeLease(db: Db, db': Db, change: Change, maxAttempts: int)
    requires Changed(db, db', change, maxAttempts) && LeaseOk(db.outbox, maxAttempts) && maxAttempts >= 1
    ensures LeaseOk(db'.outbox, maxAttempts)
  {
    match change
    case Pay(_, _, _, _, _) =>
    case Fund(_, _, _, _, _) =>
    case Deliver(e, eventId, now) => HandledFrame(db, db', e, eventId, now);
    case Lease =>
    case Requeue(_) =>
    case _ => assert db'.outbox == db.outbox;
  }

  lemma ChangeReplays(db: Db, db': Db, change: Change, maxAttempts: int)
    requires Changed(db, db', change, maxAttempts) && DeadLettersOk(db.deadLetters, db.attempts, db.actions)
    ensures DeadLettersOk(db'.deadLetters, db'.attempts, db'.actions)
  {
    match change
    case Fund(_, _, tx, _, _) => OtherActionKeeps(db.deadLetters, db.attempts, db.actions, DepositAudit(tx.id));
    case Requeue(e) => OtherActionKeeps(db.deadLetters, db.attempts, db.actions, RequeueAudit(e));
    case Trim(cutoff, _) => OtherActionKeeps(db.deadLetters, db.attempts, db.actions, PruneAudit(cutoff));
    case Deliver(e, eventId, now) => HandledFrame(db, db', e, eventId, now);
    case Store(record) => UpsertKeeps(db, record);
    case Mark(source, now) => MarkDeadLetterKeeps(db, source, now);
    case Start(source, attempt, now) => StartReplayKeeps(db, source, attempt, now);
    case Finish(attempt, source, published) =>
      if published { FinishPublishedKeeps(db, attempt, source); } else { FinishFailedKeeps(db, attempt, source); }
    case _ =>
      assert db'.deadLetters == db.deadLetters && db'.attempts == db.attempts && db'.actions == db.actions;
  }

  // ----- the broker side, participant by participant -----

  lemma PublisherBroker(c: Config, s: State, s': State, pub: Id, action: PublisherAction)
    requires PublisherNext(c, s, s', pub, action) && BrokerOk(s)
    ensures BrokerOk(s') && Persists(s, s')
  {
    match action
    case ClaimAction(e, now, locked) => ClaimsBroker(s, s', pub, e, now, locked);
    case AcceptAction(partition, acked) => AcceptsBroker(s, s', pub, partition, acked);
    case RejectAction => RejectsBroker(s, s', pub);
    case MarkPublishedAction(now) => MarksPublishedBroker(s, s', pub, now);
    case MarkFailedAction(now) => MarksFailedBroker(c, s, s', pub, now);
    case PublisherStopAction => PublisherPhaseBroker(s, pub, PubIdle);
  }

  lemma ReaderBroker(s: State, s': State, p: Place, action: SessionAction)
    requires SessionNext(s, s', p, action)
    requires BrokerOk(s) && EventsOk(s.db.transactions, s.db.outbox, s.db.processed)
    ensures BrokerOk(s') && Persists(s, s')
  {
    match action
    case FetchAction => FetchesBroker(s, s', p);
    case HandleAction(eventId, now, acked) => HandlesBroker(s, s', p, eventId, now, acked);
    case GiveUpAction => GivesUpBroker(s, s', p);
    case RecordAction(now) => RecordsBroker(s, s', p, now);
    case PublishDeadAction(now) => PublishesDeadBroker(s, s', p, now);
    case MoveFailsAction => MoveFailsBroker(s, s', p);
    case CommitAction => CommitsBroker(s, s', p);
    case CommitFailsAction => CommitFailsBroker(s, s', p);
    case RestartAction => RestartsBroker(s, s', p);
  }

  lemma StrayBroker(s: State, s': State, action: StrayAction)
    requires StrayNext(s, s', action) && BrokerOk(s) && RowsOk(s.db.transactions, s.db.outbox)
    ensures BrokerOk(s') && Persists(s, s')
  {
    match action
    case StrayHandleAction(p, o, eventId, now) => StrayHandlesBroker(s, s', p, o, eventId, now);
    case StrayRecordAction(p, o, now) => StrayRecordsBroker(s, s', p, o, now);
    case StrayMarkAction(source, now) => StrayMarksBroker(s, s', source, now);
  }

  lemma ReplayBroker(c: Config, s: State, s': State, op: Id, action: OperatorAction)
    requires OperatorNext(c, s, s', op, action) && BrokerOk(s)
    ensures BrokerOk(s') && Persists(s, s')
  {
    match action
    case LookupAction(source, now) => OperatorBroker(s, op, OpLooked(source));
    case CheckAction => ChecksBroker(s, s', op);
    case StartAction(attempt, now) => StartsBroker(s, s', op, attempt, now);
    case SendAction(partition) => SendsBroker(s, s', op, partition);
    case SendFailsAction(partition, appended) => SendFailsBroker(s, s', op, partition, appended);
    case FinishAction => FinishesBroker(s, s', op);
    case OperatorStopAction => OperatorBroker(s, op, OpIdle);
  }

  lemma NextBroker(c: Config, s: State, s': State, step: Step)
    requires Next(c, s, s', step)
    requires BrokerOk(s) && EventsOk(s.db.transactions, s.db.outbox, s.db.processed)
    ensures BrokerOk(s') && Persists(s, s')
  {
    match step
    case RequestStep(action) =>
      match action {
        case PayAction(key, hash, tx, eventId, now) => CreatesPaymentBroker(s, s', key, hash, tx, eventId, now);
        case FundAction(key, hash, tx, eventId, now) => CreatesDepositBroker(s, s', key, hash, tx, eventId, now);
      }
    case PublisherStep(pub, action) => PublisherBroker(c, s, s', pub, action);
    case SessionStep(p, action) => ReaderBroker(s, s', p, action);
    case StrayStep(action) => StrayBroker(s, s', action);
    case OperatorStep(op, action) => ReplayBroker(c, s, s', op, action);
    case MaintenanceStep(action) =>
      match action {
        case RequeueAction(e, now) => RequeuesBroker(s, s', e, now);
        case PruneAction(now, busy, victims) => PrunesBroker(c, s, s', now, busy, victims);
      }
  }

  // ----- the invariant -----

  ghost predicate Inv(c: Config, s: State) {
    DbOk(s.db, c.maxAttempts) && BrokerOk(s)
  }

  lemma InitialInv(c: Config)
    ensures Inv(c, INITIAL)
  {
    EmptyOk(c.maxAttempts);
  }

  lemma NextInv(c: Config, s: State, s': State, step: Step)
    requires Inv(c, s) && c.maxAttempts >= 1 && Next(c, s, s', step)
    ensures Inv(c, s') && Persists(s, s')
  {
    NextBroker(c, s, s', step);
    var change := NextChange(c, s, s', step);
    ChangeMoney(s.db, s'.db, change, c.maxAttempts);
    ChangeEvents(s.db, s'.db, change, c.maxAttempts);
    ChangeLease(s.db, s'.db, change, c.maxAttempts);
    ChangeRequests(s.db, s'.db, change, c.maxAttempts);
    ChangeReplays(s.db, s'.db, change, c.maxAttempts);
  }
}
