/** Each step of the pipeline keeps the broker invariant. */
module PipelineSteps {
  import opened Domain
  import opened Tables
  import opened Messages
  import opened DeadLetters
  import opened Invariants
  import opened Pipeline
  import opened PipelineInvariant
  import opened Preservation

  /** A step that changes nothing but the database, and publishes, dead-letters and republishes nothing. */
  lemma DbBroker(s: State, s': State)
    requires BrokerOk(s) && s' == s.(db := s'.db) && Grows(s.db, s'.db)
    requires s'.db.deadLetters.Keys == s.db.deadLetters.Keys
    requires forall e :: IsPublished(s'.db, e) ==> IsPublished(s.db, e)
    requires forall source :: IsRepublished(s'.db, source) ==> IsRepublished(s.db, source)
    ensures BrokerOk(s') && Persists(s, s')
  {
    assert forall p :: Log(s', p) == Log(s, p);
    BrokerKeeps(s, s');
  }

  // ----- requests -----

  lemma CreatesPaymentBroker(s: State, s': State, key: Id, hash: string, tx: Transaction, eventId: Id, now: int)
    requires BrokerOk(s) && CreatesPayment(s, s', key, hash, tx, eventId, now)
    ensures BrokerOk(s') && Persists(s, s')
  {
    CreatePaymentGrows(s.db, key, hash, tx, eventId, now);
    DbBroker(s, s');
  }

  lemma CreatesDepositBroker(s: State, s': State, key: Id, hash: string, tx: Transaction, eventId: Id, now: int)
    requires BrokerOk(s) && CreatesDeposit(s, s', key, hash, tx, eventId, now)
    ensures BrokerOk(s') && Persists(s, s')
  {
    CreateDepositGrows(s.db, key, hash, tx, eventId, now);
    DbBroker(s, s');
  }

  // ----- publishers -----

  lemma PublisherPhaseBroker(s: State, pub: Id, phase: Publisher)
    requires BrokerOk(s) && PublisherOk(s, phase)
    ensures BrokerOk(SetPublisher(s, pub, phase)) && Persists(s, SetPublisher(s, pub, phase))
  {
    BrokerKeeps(s, SetPublisher(s, pub, phase));
  }

  lemma ClaimsBroker(s: State, s': State, pub: Id, e: Id, now: int, locked: set<Id>)
    requires BrokerOk(s) && Claims(s, s', pub, e, now, locked)
    ensures BrokerOk(s') && Persists(s, s')
  {
    var middle := s.(db := s'.db);
    DbBroker(s, middle);
    PublisherPhaseBroker(middle, pub, PubClaimed(e));
    PersistsThrough(s, middle, s');
  }

  lemma AcceptsBroker(s: State, s': State, pub: Id, partition: nat, acked: bool)
    requires BrokerOk(s) && Accepts(s, s', pub, partition, acked)
    ensures BrokerOk(s') && Persists(s, s')
  {
    var e := PublisherAt(s, pub).event;
    var p := Place(TopicFor(s.db.outbox[e].eventType), partition);
    var middle := Append(s, p, e, MessageOf(s.db.outbox[e]));
    AppendBroker(s, p, e, MessageOf(s.db.outbox[e]));
    assert Log(middle, p)[|Log(s, p)|].origin == e;
    PublisherPhaseBroker(middle, pub, if acked then PubAccepted(e) else PubRejected(e));
    PersistsThrough(s, middle, s');
  }

  lemma RejectsBroker(s: State, s': State, pub: Id)
    requires BrokerOk(s) && Rejects(s, s', pub)
    ensures BrokerOk(s') && Persists(s, s')
  {
    assert PublisherOk(s, PublisherAt(s, pub));
    BrokerKeeps(s, s');
  }

  lemma MarksPublishedBroker(s: State, s': State, pub: Id, now: int)
    requires BrokerOk(s) && MarksPublished(s, s', pub, now)
    ensures BrokerOk(s') && Persists(s, s')
  {
    var middle := s.(db := s'.db);
    assert PublisherOk(s, PublisherAt(s, pub));
    assert forall p :: Log(middle, p) == Log(s, p);
    BrokerKeeps(s, middle);
    PublisherPhaseBroker(middle, pub, PubIdle);
    PersistsThrough(s, middle, s');
  }

  lemma MarksFailedBroker(c: Config, s: State, s': State, pub: Id, now: int)
    requires BrokerOk(s) && MarksFailed(c, s, s', pub, now)
    ensures BrokerOk(s') && Persists(s, s')
  {
    var middle := s.(db := s'.db);
    DbBroker(s, middle);
    PublisherPhaseBroker(middle, pub, PubIdle);
    PersistsThrough(s, middle, s');
  }

  lemma RequeuesBroker(s: State, s': State, e: Id, now: int)
    requires BrokerOk(s) && Requeues(s, s', e, now)
    ensures BrokerOk(s') && Persists(s, s')
  {
    DbBroker(s, s');
  }

  // ----- sessions -----

  /** A step that changes nothing but one session, to one that is in order. */
  lemma SessionBroker(s: State, s': State, p: Place)
    requires BrokerOk(s) && s' == s.(sessions := s'.sessions, commits := s'.commits)
    requires forall q :: q != p ==> SessionAt(s', q) == SessionAt(s, q) && CommitOf(s', q) == CommitOf(s, q)
    requires SessionOk(s', p)
    requires ConsumerOf(p.topic).Some? ==>
      && (!SessionAt(s', p).gap ==>
            forall o :: CommitOf(s', p) <= o < Passed(SessionAt(s', p)) && o < |Log(s, p)| ==> Settled(s, p, o))
      && (SessionAt(s', p).phase.Resolved? && SessionAt(s', p).phase.offset < |Log(s, p)| ==>
            Settled(s, p, SessionAt(s', p).phase.offset))
    ensures BrokerOk(s') && Persists(s, s')
  {
    assert Persists(s, s');
    if ConsumerOf(p.topic).Some? {
      AllSettledPersist(s, s', p);
    }
    assert CoverOk(s', p);
    BrokerKeeps(s, s');
  }

  /** A session goes on working on the same message. */
  lemma AdvanceBroker(s: State, p: Place, phase: Phase)
    requires BrokerOk(s) && !SessionAt(s, p).phase.Idle? && !phase.Idle?
    requires phase.offset == SessionAt(s, p).phase.offset
    requires ConsumerOf(p.topic).Some? && phase.offset < |Log(s, p)|
    requires phase.Recorded? ==> SourceOf(p, phase.offset) in s.db.deadLetters
    requires phase.Resolved? ==> Settled(s, p, phase.offset)
    requires SessionAt(s, p).phase.Resolved? ==> phase.Resolved?
    ensures BrokerOk(SetPhase(s, p, phase)) && Persists(s, SetPhase(s, p, phase))
  {
    assert SessionOk(s, p) && CoverOk(s, p);
    SessionBroker(s, SetPhase(s, p, phase), p);
  }

  lemma PersistsThrough(s: State, middle: State, s': State)
    requires Persists(s, middle) && s'.db == middle.db && s'.logs == middle.logs && s'.stamp == middle.stamp
    ensures Persists(s, s')
  {
  }

  lemma FetchesBroker(s: State, s': State, p: Place)
    requires BrokerOk(s) && Fetches(s, s', p)
    ensures BrokerOk(s') && Persists(s, s')
  {
    assert SessionOk(s, p) && CoverOk(s, p);
    SessionBroker(s, s', p);
  }

  lemma GivesUpBroker(s: State, s': State, p: Place)
    requires BrokerOk(s) && GivesUp(s, s', p)
    ensures BrokerOk(s') && Persists(s, s')
  {
    assert SessionOk(s, p) && CoverOk(s, p);
    SessionBroker(s, s', p);
  }

  lemma MoveFailsBroker(s: State, s': State, p: Place)
    requires BrokerOk(s) && MoveFails(s, s', p)
    ensures BrokerOk(s') && Persists(s, s')
  {
    assert SessionOk(s, p) && CoverOk(s, p);
    SessionBroker(s, s', p);
  }

  lemma CommitsBroker(s: State, s': State, p: Place)
    requires BrokerOk(s) && Commits(s, s', p)
    ensures BrokerOk(s') && Persists(s, s')
  {
    assert SessionOk(s, p) && CoverOk(s, p);
    SessionBroker(s, s', p);
  }

  lemma CommitFailsBroker(s: State, s': State, p: Place)
    requires BrokerOk(s) && CommitFails(s, s', p)
    ensures BrokerOk(s') && Persists(s, s')
  {
    assert SessionOk(s, p) && CoverOk(s, p);
    SessionBroker(s, s', p);
  }

  lemma RestartsBroker(s: State, s': State, p: Place)
    requires BrokerOk(s) && Restarts(s, s', p)
    ensures BrokerOk(s') && Persists(s, s')
  {
    assert SessionOk(s, p) && CoverOk(s, p);
    SessionBroker(s, s', p);
  }

  // ----- handlers -----

  /** A delivery is the handler on the event the entry came from, and success has its effect. */
  lemma DeliveryHandled(s: State, p: Place, o: nat, eventId: Id, now: int)
    requires RowsOk(s.db.transactions, s.db.outbox) && o < |Log(s, p)| && EntryOk(s, p, o)
    requires Delivered(s, p, o, eventId, now).Ok?
    ensures Handled(s.db, Delivered(s, p, o, eventId, now).value.0, Log(s, p)[o].origin, eventId, now)
  {
    var e := Log(s, p)[o].origin;
    assert Delivered(s, p, o, eventId, now) == HandleRow(s.db, e, p.partition, o, eventId, now);
    HandleShape(s.db, e, p.partition, o, eventId, now);
  }

  /** A handler writes neither the dead letters nor any lease column, and adds rows as PENDING. */
  predicate OnlyNewPending(outbox: map<Id, OutboxRow>, outbox': map<Id, OutboxRow>) {
    forall x :: x in outbox' ==> if x in outbox then outbox'[x] == outbox[x]
                                 else outbox'[x].status == OutboxPending && outbox'[x].attempts == 0
  }

  lemma RiskFirstFrame(db: Db, db': Db, e: Id, row: ProcessedRow, eventId: Id, now: int)
    requires RiskFirst(db, db', e, row, eventId, now)
    ensures db'.deadLetters == db.deadLetters && db'.attempts == db.attempts && db'.actions == db.actions
    ensures OnlyNewPending(db.outbox, db'.outbox)
  {
  }

  lemma LedgerFirstFrame(db: Db, db': Db, e: Id, row: ProcessedRow, outcome: RiskEvaluated, eventId: Id, now: int)
    requires LedgerFirst(db, db', e, row, outcome, eventId, now)
    ensures db'.deadLetters == db.deadLetters && db'.attempts == db.attempts && db'.actions == db.actions
    ensures OnlyNewPending(db.outbox, db'.outbox)
  {
  }

  lemma HandledFrame(db: Db, db': Db, e: Id, eventId: Id, now: int)
    requires Handled(db, db', e, eventId, now)
    ensures db'.deadLetters == db.deadLetters && db'.attempts == db.attempts && db'.actions == db.actions
    ensures OnlyNewPending(db.outbox, db'.outbox)
  {
    if row :| RiskFirst(db, db', e, row, eventId, now) {
      RiskFirstFrame(db, db', e, row, eventId, now);
    } else if row, outcome :| LedgerFirst(db, db', e, row, outcome, eventId, now) {
      LedgerFirstFrame(db, db', e, row, outcome, eventId, now);
    } else {
      assert db' == db.(processed := db'.processed);
    }
  }

  lemma HandledBroker(s: State, s': State, e: Id, eventId: Id, now: int)
    requires BrokerOk(s) && s' == s.(db := s'.db) && Handled(s.db, s'.db, e, eventId, now)
    ensures BrokerOk(s') && Persists(s, s')
  {
    HandledGrows(s.db, s'.db, e, eventId, now);
    HandledFrame(s.db, s'.db, e, eventId, now);
    DbBroker(s, s');
  }

  lemma StrayHandlesBroker(s: State, s': State, p: Place, o: nat, eventId: Id, now: int)
    requires BrokerOk(s) && RowsOk(s.db.transactions, s.db.outbox) && StrayHandles(s, s', p, o, eventId, now)
    ensures BrokerOk(s') && Persists(s, s')
  {
    if Delivered(s, p, o, eventId, now).Ok? {
      assert EntryOk(s, p, o);
      DeliveryHandled(s, p, o, eventId, now);
      HandledBroker(s, s', Log(s, p)[o].origin, eventId, now);
    } else {
      assert s' == s;
    }
  }

  lemma HandlesBroker(s: State, s': State, p: Place, eventId: Id, now: int, acked: bool)
    requires BrokerOk(s) && EventsOk(s.db.transactions, s.db.outbox, s.db.processed) && Handles(s, s', p, eventId, now, acked)
    ensures BrokerOk(s') && Persists(s, s')
  {
    var o := SessionAt(s, p).phase.offset;
    var middle := s.(db := s'.db);
    assert SessionOk(s, p) && EntryOk(s, p, o);
    StrayHandlesBroker(s, middle, p, o, eventId, now);
    if Delivered(s, p, o, eventId, now).Ok? {
      DeliverySettles(s, middle, p, o, eventId, now);
    }
    AdvanceBroker(middle, p, SessionAt(s', p).phase);
    PersistsThrough(s, middle, s');
  }

  lemma DeliverySettles(s: State, s': State, p: Place, o: nat, eventId: Id, now: int)
    requires EventsOk(s.db.transactions, s.db.outbox, s.db.processed)
    requires ConsumerOf(p.topic).Some? && o < |Log(s, p)| && EntryOk(s, p, o)
    requires Delivered(s, p, o, eventId, now).Ok? && s' == s.(db := Delivered(s, p, o, eventId, now).value.0)
    ensures Settled(s', p, o)
  {
    var e := Log(s, p)[o].origin;
    DeliveryHandled(s, p, o, eventId, now);
    HandledEvents(s.db, s'.db, e, eventId, now);
    HandledGrows(s.db, s'.db, e, eventId, now);
    HandledSettles(s, s', p, o);
  }

  lemma HandledSettles(s: State, s': State, p: Place, o: nat)
    requires ConsumerOf(p.topic).Some? && o < |Log(s, p)| && Log(s', p) == Log(s, p) && EntryOk(s, p, o)
    requires OutboxGrows(s.db.outbox, s'.db.outbox)
    requires Effect(s'.db.transactions, s'.db.outbox, s.db.outbox[Log(s, p)[o].origin])
    ensures Settled(s', p, o)
  {
  }

  // ----- dead letters -----

  lemma StrayRecordsBroker(s: State, s': State, p: Place, o: nat, now: int)
    requires BrokerOk(s) && StrayRecords(s, s', p, o, now)
    ensures BrokerOk(s') && Persists(s, s')
  {
    var record := RecordFromMessage(SourceOf(p, o), Log(s, p)[o].message, now);
    UpsertGrows(s.db, record);
    assert Place(p.topic, p.partition) == p;
    BrokerKeeps(s, s');
  }

  lemma RecordsBroker(s: State, s': State, p: Place, now: int)
    requires BrokerOk(s) && Records(s, s', p, now)
    ensures BrokerOk(s') && Persists(s, s')
  {
    var o := SessionAt(s, p).phase.offset;
    var middle := s.(db := s'.db);
    assert SessionOk(s, p);
    StrayRecordsBroker(s, middle, p, o, now);
    AdvanceBroker(middle, p, SessionAt(s', p).phase);
    PersistsThrough(s, middle, s');
  }

  lemma StrayMarksBroker(s: State, s': State, source: Source, now: int)
    requires BrokerOk(s) && StrayMarks(s, s', source, now)
    ensures BrokerOk(s') && Persists(s, s')
  {
    MarkDeadLetterGrows(s.db, source, now);
    DbBroker(s, s');
  }

  lemma PublishesDeadBroker(s: State, s': State, p: Place, now: int)
    requires BrokerOk(s) && PublishesDead(s, s', p, now)
    ensures BrokerOk(s') && Persists(s, s')
  {
    var o := SessionAt(s, p).phase.offset;
    var middle := s.(db := s'.db);
    assert SessionOk(s, p);
    StrayMarksBroker(s, middle, SourceOf(p, o), now);
    AdvanceBroker(middle, p, SessionAt(s', p).phase);
    PersistsThrough(s, middle, s');
  }

  // ----- operators -----

  lemma OperatorBroker(s: State, op: Id, phase: Operator)
    requires BrokerOk(s) && OperatorOk(s, phase)
    ensures BrokerOk(SetOperator(s, op, phase)) && Persists(s, SetOperator(s, op, phase))
  {
    var s' := SetOperator(s, op, phase);
    assert Persists(s, s');
    OperatorPersists(s, s', phase);
    BrokerKeeps(s, s');
  }

  lemma ChecksBroker(s: State, s': State, op: Id)
    requires BrokerOk(s) && Checks(s, s', op)
    ensures BrokerOk(s') && Persists(s, s')
  {
    OperatorBroker(s, op, OpChecked(OperatorAt(s, op).source));
  }

  lemma StartsBroker(s: State, s': State, op: Id, attempt: Id, now: int)
    requires BrokerOk(s) && Starts(s, s', op, attempt, now)
    ensures BrokerOk(s') && Persists(s, s')
  {
    var middle := s.(db := s'.db);
    StartReplayGrows(s.db, OperatorAt(s, op).source, attempt, now);
    DbBroker(s, middle);
    OperatorBroker(middle, op, OpStarted(OperatorAt(s, op).source, attempt));
    PersistsThrough(s, middle, s');
  }

  /** A copy of an event's message is appended on the event's topic. */
  lemma AppendBroker(s: State, p: Place, e: Id, m: Message)
    requires BrokerOk(s) && e in s.db.outbox && m == MessageOf(s.db.outbox[e]) && TopicFor(s.db.outbox[e].eventType) == p.topic
    ensures BrokerOk(Append(s, p, e, m)) && Persists(s, Append(s, p, e, m))
  {
    BrokerKeeps(s, Append(s, p, e, m));
  }

  lemma AppendIsLater(s: State, p: Place, m: Message, source: Source)
    requires source.offset < |Log(s, PlaceOf(source))| && EntryOk(s, PlaceOf(source), source.offset)
    ensures LaterCopy(Append(s, p, Log(s, PlaceOf(source))[source.offset].origin, m), source)
  {
    var s' := Append(s, p, Log(s, PlaceOf(source))[source.offset].origin, m);
    assert Log(s', p)[|Log(s, p)|].stamp > Log(s', PlaceOf(source))[source.offset].stamp;
  }

  lemma ResentBroker(s: State, source: Source, partition: nat)
    requires BrokerOk(s) && source in s.db.deadLetters && source.offset < |Log(s, PlaceOf(source))|
    ensures BrokerOk(Resent(s, source, partition)) && Persists(s, Resent(s, source, partition))
    ensures LaterCopy(Resent(s, source, partition), source)
  {
    var p, m := Place(source.topic, partition), ReplayMessage(s.db.deadLetters[source]);
    assert DeadOk(s, source) && EntryOk(s, PlaceOf(source), source.offset);
    AppendBroker(s, p, Log(s, PlaceOf(source))[source.offset].origin, m);
    AppendIsLater(s, p, m, source);
  }

  lemma SendsBroker(s: State, s': State, op: Id, partition: nat)
    requires BrokerOk(s) && Sends(s, s', op, partition)
    ensures BrokerOk(s') && Persists(s, s')
  {
    var source := OperatorAt(s, op).source;
    assert OperatorOk(s, OperatorAt(s, op));
    ResentBroker(s, source, partition);
    OperatorBroker(Resent(s, source, partition), op, OperatorAt(s', op));
  }

  lemma SendFailsBroker(s: State, s': State, op: Id, partition: nat, appended: bool)
    requires BrokerOk(s) && SendFails(s, s', op, partition, appended)
    ensures BrokerOk(s') && Persists(s, s')
  {
    var source := OperatorAt(s, op).source;
    assert OperatorOk(s, OperatorAt(s, op));
    if appended {
      ResentBroker(s, source, partition);
      OperatorBroker(Resent(s, source, partition), op, OperatorAt(s', op));
    } else {
      OperatorBroker(s, op, OperatorAt(s', op));
    }
  }

  lemma FinishReplayFrame(db: Db, attempt: Id, source: Source, published: bool)
    ensures var db' := After(db, FinishReplay(db, attempt, source, published));
            && db'.outbox == db.outbox && db'.deadLetters.Keys == db.deadLetters.Keys
            && forall x :: IsRepublished(db', x) && !IsRepublished(db, x) ==> x == source && published
  {
  }

  /** A published replay is recorded only after the copy is in the log. */
  lemma FinishedBroker(s: State, s': State, source: Source, published: bool)
    requires BrokerOk(s) && (published ==> LaterCopy(s, source))
    requires s' == s.(db := s'.db) && Grows(s.db, s'.db)
    requires s'.db.outbox == s.db.outbox && s'.db.deadLetters.Keys == s.db.deadLetters.Keys
    requires forall x :: IsRepublished(s'.db, x) && !IsRepublished(s.db, x) ==> x == source && published
    ensures BrokerOk(s') && Persists(s, s')
  {
    assert Persists(s, s');
    if published {
      LaterCopyPersists(s, s', source);
    }
    BrokerKeeps(s, s');
  }

  lemma FinishesBroker(s: State, s': State, op: Id)
    requires BrokerOk(s) && Finishes(s, s', op)
    ensures BrokerOk(s') && Persists(s, s')
  {
    var phase := OperatorAt(s, op);
    var middle := s.(db := s'.db);
    assert OperatorOk(s, phase);
    FinishReplayGrows(s.db, phase.attempt, phase.source, phase.OpSent?);
    FinishReplayFrame(s.db, phase.attempt, phase.source, phase.OpSent?);
    FinishedBroker(s, middle, phase.source, phase.OpSent?);
    OperatorBroker(middle, op, OpIdle);
    PersistsThrough(s, middle, s');
  }

  lemma PrunesBroker(c: Config, s: State, s': State, now: int, busy: set<InboxKey>, victims: set<InboxKey>)
    requires BrokerOk(s) && Prunes(c, s, s', now, busy, victims)
    ensures BrokerOk(s') && Persists(s, s')
  {
    BrokerKeeps(s, s');
  }
}
