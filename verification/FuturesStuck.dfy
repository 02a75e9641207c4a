/** A payment none of whose events can move is not decided in any future. */
module FuturesStuck {
  import opened Domain
  import opened Tables
  import opened Messages
  import opened DeadLetters
  import opened Invariants
  import opened Pipeline
  import opened PipelineInvariant
  import opened PipelineSteps
  import opened PipelineTheorems
  import opened Preservation
  import opened Inductions
  import opened NoLoss
  import opened Outcomes
  import opened Futures

  /** What a step does to the events of a payment, in the tables. */
  ghost predicate TablesStill(db: Db, db': Db, t: Id) {
    && (forall e :: EventIn(db'.outbox, e, t) ==> EventIn(db.outbox, e, t))
    && (forall e, source :: EventIn(db.outbox, e, t) && OpenLetter(db', source, e) ==> Barred(db, e) || SameLetter(db, db', source, e))
    && (forall e :: EventIn(db.outbox, e, t) && Barred(db, e) ==> Barred(db', e))
    && t in db.transactions && t in db'.transactions && db'.transactions[t] == db.transactions[t]
  }

  predicate SameLetter(db: Db, db': Db, source: Source, e: Id)
    requires OpenLetter(db', source, e)
  {
    OpenLetter(db, source, e) && db.deadLetters[source].firstFailedAt == db'.deadLetters[source].firstFailedAt
  }

  /** And in the logs: an event that is appended cannot be replayed or forgotten. */
  ghost predicate LogsStill(s: State, s': State, t: Id) {
    && (forall p, o :: |Log(s, p)| <= o < |Log(s', p)| && EventIn(s.db.outbox, Log(s', p)[o].origin, t) ==> Barred(s.db, Log(s', p)[o].origin))
    && (forall p :: CommitOf(s, p) <= CommitOf(s', p))
  }

  ghost predicate NoneMoves(c: Config, s: State, t: Id, now: int) {
    forall e :: EventIn(s.db.outbox, e, t) ==> !Movable(c, s, e, now)
  }

  /** An event that cannot move and is not barred has been published and delivered, and its OPEN letters are refused. */
  lemma Spent(c: Config, s: State, e: Id, now: int)
    requires !Movable(c, s, e, now) && !Barred(s.db, e) && e in s.db.outbox
    ensures IsPublished(s.db, e) && !Undelivered(s, e)
    ensures forall source :: OpenLetter(s.db, source, e) ==> CheckReplay(s.db.deadLetters[source], c.window, now).Err?
  {
  }

  lemma StaysSpent(c: Config, s: State, s': State, t: Id, now: int, e: Id)
    requires Persists(s, s') && TablesStill(s.db, s'.db, t) && LogsStill(s, s', t)
    requires EventIn(s.db.outbox, e, t) && !Movable(c, s, e, now) && !Barred(s.db, e)
    ensures !Movable(c, s', e, now)
  {
    Spent(c, s, e, now);
    assert IsPublished(s'.db, e);
  }

  lemma StaysStuck(c: Config, s: State, s': State, t: Id, now: int)
    requires Persists(s, s') && TablesStill(s.db, s'.db, t) && LogsStill(s, s', t) && NoneMoves(c, s, t, now)
    ensures NoneMoves(c, s', t, now)
  {
    forall e | EventIn(s'.db.outbox, e, t) ensures !Movable(c, s', e, now) {
      if Barred(s.db, e) {
        assert Barred(s'.db, e);
      } else {
        StaysSpent(c, s, s', t, now, e);
      }
    }
  }

  // ----- the tables, change by change -----

  /** Rows are added for other payments, or change their lease; the inbox only grows. */
  lemma RowsStill(db: Db, db': Db, t: Id)
    requires t in db.transactions && t in db'.transactions && db'.transactions[t] == db.transactions[t]
    requires forall e :: e in db'.outbox ==> if e in db.outbox then SameEvent(db.outbox[e], db'.outbox[e]) else db'.outbox[e].aggregate != t
    requires db'.deadLetters == db.deadLetters && db.processed.Keys <= db'.processed.Keys
    ensures TablesStill(db, db', t)
  {
    forall e | EventIn(db'.outbox, e, t) ensures EventIn(db.outbox, e, t) {
      assert e in db.outbox;
    }
    forall e | EventIn(db.outbox, e, t) && Barred(db, e) ensures Barred(db', e) {
      var source :| OpenLetter(db, source, e);
      assert OpenLetter(db', source, e);
      var k :| k in db.processed && k.1 == e;
      assert k in db'.processed;
    }
  }

  /** Dead letters are added only for barred events of the payment, and none of its letters closes. */
  lemma LettersStill(db: Db, db': Db, t: Id)
    requires t in db.transactions && db'.transactions == db.transactions && db'.outbox == db.outbox && db'.processed == db.processed
    requires forall source :: source in db.deadLetters ==>
      && source in db'.deadLetters && db'.deadLetters[source].eventId == db.deadLetters[source].eventId
      && db'.deadLetters[source].firstFailedAt == db.deadLetters[source].firstFailedAt
      && (db.deadLetters[source].state == db'.deadLetters[source].state || !LetterFor(db, source, t))
    requires forall source :: source in db'.deadLetters && source !in db.deadLetters ==> !LetterFor(db', source, t) || BarredLetter(db, db', source)
    ensures TablesStill(db, db', t)
  {
    forall e, source | EventIn(db.outbox, e, t) && OpenLetter(db', source, e) ensures Barred(db, e) || SameLetter(db, db', source, e) {
      if source in db.deadLetters {
        assert LetterFor(db, source, t);
      } else {
        assert LetterFor(db', source, t);
      }
    }
    forall e | EventIn(db.outbox, e, t) && Barred(db, e) ensures Barred(db', e) {
      var source :| OpenLetter(db, source, e);
      assert LetterFor(db, source, t) && OpenLetter(db', source, e);
    }
  }

  /** The dead letter names an event of the payment. */
  predicate LetterFor(db: Db, source: Source, t: Id) {
    source in db.deadLetters && db.deadLetters[source].eventId.Some? && EventIn(db.outbox, db.deadLetters[source].eventId.value, t)
  }

  ghost predicate BarredLetter(db: Db, db': Db, source: Source)
    requires source in db'.deadLetters
  {
    db'.deadLetters[source].eventId.Some? && Barred(db, db'.deadLetters[source].eventId.value)
  }

  /** A prune spares the inbox rows of barred events. */
  lemma PruneStill(db: Db, cutoff: int, batch: nat, busy: set<InboxKey>, victims: set<InboxKey>, t: Id)
    requires t in db.transactions && IsPruneBatch(db, cutoff, batch, busy, victims)
    ensures TablesStill(db, Prune(db, cutoff, victims), t)
  {
    var db' := Prune(db, cutoff, victims);
    forall e | EventIn(db.outbox, e, t) && Barred(db, e) ensures Barred(db', e) {
      var source :| OpenLetter(db, source, e);
      assert OpenLetter(db', source, e);
      var k :| k in db.processed && k.1 == e;
      assert Guards(db.deadLetters[source], e, cutoff);
      assert !Prunable(db, k, cutoff);
      assert k in db'.processed;
    }
  }

  /** A delivery of another payment's event, or a repeat. */
  lemma DeliveryStill(db: Db, db': Db, e: Id, eventId: Id, now: int, t: Id)
    requires Handled(db, db', e, eventId, now) && t in db.transactions && RowsOk(db.transactions, db.outbox)
    requires InboxOk(db.transactions, db.outbox, db.processed) && (EventIn(db.outbox, e, t) ==> EventProcessed(db, e))
    ensures TablesStill(db, db', t)
  {
    if row :| RiskFirst(db, db', e, row, eventId, now) {
      RiskFirstStill(db, db', e, row, eventId, now, t);
    } else if row, outcome :| LedgerFirst(db, db', e, row, outcome, eventId, now) {
      LedgerFirstStill(db, db', e, row, outcome, eventId, now, t);
    } else {
      var k :| Repeated(db, db', k, now) && k.1 == e;
      RowsStill(db, db', t);
    }
  }

  lemma RiskFirstStill(db: Db, db': Db, e: Id, row: ProcessedRow, eventId: Id, now: int, t: Id)
    requires RiskFirst(db, db', e, row, eventId, now) && t in db.transactions
    requires InboxOk(db.transactions, db.outbox, db.processed) && (EventIn(db.outbox, e, t) ==> EventProcessed(db, e))
    ensures TablesStill(db, db', t)
  {
    assert !EventIn(db.outbox, e, t);
    RowsStill(db, db', t);
  }

  lemma LedgerFirstStill(db: Db, db': Db, e: Id, row: ProcessedRow, outcome: RiskEvaluated, eventId: Id, now: int, t: Id)
    requires LedgerFirst(db, db', e, row, outcome, eventId, now) && t in db.transactions
    requires InboxOk(db.transactions, db.outbox, db.processed) && (EventIn(db.outbox, e, t) ==> EventProcessed(db, e))
    ensures TablesStill(db, db', t)
  {
    assert !EventIn(db.outbox, e, t);
    RowsStill(db, db', t);
  }

  // ----- the participants -----

  ghost predicate ClaimStill(db: Db, phase: Publisher, t: Id) {
    phase.PubClaimed? && EventIn(db.outbox, phase.event, t) ==> Barred(db, phase.event)
  }

  /** An operator has at most looked at a dead letter of the payment, and one that is barred. */
  ghost predicate OperatorStill(db: Db, phase: Operator, t: Id) {
    match phase
    case OpIdle => true
    case OpLooked(source) => LetterFor(db, source, t) ==> BarredLetter(db, db, source)
    case OpChecked(source) => !LetterFor(db, source, t)
    case OpStarted(source, _) => !LetterFor(db, source, t)
    case OpSent(source, _) => !LetterFor(db, source, t)
    case OpUnsent(source, _) => !LetterFor(db, source, t)
  }

  ghost predicate ActorsStill(s: State, t: Id) {
    (forall pub :: ClaimStill(s.db, PublisherAt(s, pub), t)) && (forall op :: OperatorStill(s.db, OperatorAt(s, op), t))
  }

  predicate SourceOfPhase(phase: Operator, dead: map<Source, DeadLetter>) {
    phase.OpIdle? || phase.source in dead
  }

  ghost predicate SourcesKnown(s: State) {
    forall op :: SourceOfPhase(OperatorAt(s, op), s.db.deadLetters)
  }

  lemma OperatorSources(c: Config, s: State)
    requires Inv(c, s)
    ensures SourcesKnown(s)
  {
    forall op ensures SourceOfPhase(OperatorAt(s, op), s.db.deadLetters) {
      assert OperatorOk(s, OperatorAt(s, op));
    }
  }

  lemma OperatorStaysStill(db: Db, db': Db, phase: Operator, t: Id)
    requires TablesStill(db, db', t) && DeadLettersGrow(db.deadLetters, db'.deadLetters)
    requires SourceOfPhase(phase, db.deadLetters) && OperatorStill(db, phase, t)
    ensures OperatorStill(db', phase, t)
  {
    if !phase.OpIdle? {
      assert DeadLetterGrows(db.deadLetters[phase.source], db'.deadLetters[phase.source]);
      assert LetterFor(db', phase.source, t) ==> LetterFor(db, phase.source, t);
    }
  }

  lemma ClaimStaysStill(db: Db, db': Db, phase: Publisher, t: Id)
    requires TablesStill(db, db', t) && ClaimStill(db, phase, t)
    ensures ClaimStill(db', phase, t)
  {
  }

  /** Participants that do not take the step stay where they are. */
  lemma OthersStayStill(s: State, s': State, t: Id)
    requires SourcesKnown(s) && DeadLettersGrow(s.db.deadLetters, s'.db.deadLetters) && TablesStill(s.db, s'.db, t) && ActorsStill(s, t)
    ensures forall pub :: PublisherAt(s', pub) == PublisherAt(s, pub) ==> ClaimStill(s'.db, PublisherAt(s', pub), t)
    ensures forall op :: OperatorAt(s', op) == OperatorAt(s, op) ==> OperatorStill(s'.db, OperatorAt(s', op), t)
  {
    forall pub | PublisherAt(s', pub) == PublisherAt(s, pub) {
      ClaimStaysStill(s.db, s'.db, PublisherAt(s', pub), t);
    }
    forall op | OperatorAt(s', op) == OperatorAt(s, op) {
      OperatorStaysStill(s.db, s'.db, OperatorAt(s', op), t);
    }
  }

  // ----- the steps -----

  ghost predicate Stuck(c: Config, s: State, t: Id, now: int) {
    PendingAt(s, t) && NoneMoves(c, s, t, now) && ActorsStill(s, t)
  }

  /** The step leaves the payment's events where they are. */
  ghost predicate StepStill(s: State, s': State, t: Id) {
    TablesStill(s.db, s'.db, t) && LogsStill(s, s', t)
  }

  /** A message that a session works on is undelivered, so if it is the payment's, its event is barred. */
  lemma WorkIsBarred(c: Config, s: State, t: Id, now: int, p: Place)
    requires SessionOk(s, p) && NoneMoves(c, s, t, now) && !SessionAt(s, p).phase.Idle? && !SessionAt(s, p).phase.Resolved?
    ensures var o := SessionAt(s, p).phase.offset;
            o < |Log(s, p)| && (EventIn(s.db.outbox, Log(s, p)[o].origin, t) ==> Barred(s.db, Log(s, p)[o].origin))
  {
    var o := SessionAt(s, p).phase.offset;
    assert CommitOf(s, p) <= o < |Log(s, p)|;
    assert Undelivered(s, Log(s, p)[o].origin);
  }

  lemma PayStill(s: State, s': State, key: Id, hash: string, tx: Transaction, eventId: Id, now: int, t: Id)
    requires CreatesPayment(s, s', key, hash, tx, eventId, now) && t in s.db.transactions
    ensures StepStill(s, s', t)
  {
    if Payments.CreatePayment(s.db, key, hash, tx, eventId, now).Ok? {
      assert s'.db.outbox == s.db.outbox[eventId := Payments.CreatedEvent(tx, eventId, now)];
    } else {
      assert s' == s;
    }
    RowsStill(s.db, s'.db, t);
  }

  lemma FundStill(s: State, s': State, key: Id, hash: string, tx: Transaction, eventId: Id, now: int, t: Id)
    requires CreatesDeposit(s, s', key, hash, tx, eventId, now) && t in s.db.transactions
    ensures StepStill(s, s', t)
  {
    if Payments.CreateDeposit(s.db, key, hash, tx, eventId, now).Ok? {
      assert s'.db.outbox == s.db.outbox[eventId := Payments.DepositedEvent(tx, eventId, now)];
    } else {
      assert s' == s;
    }
    RowsStill(s.db, s'.db, t);
  }

  lemma LeaseStill(c: Config, s: State, s': State, t: Id)
    requires t in s.db.transactions && LeaseOnly(s.db, s'.db, c.maxAttempts)
    requires s'.db == s.db.(outbox := s'.db.outbox, actions := s'.db.actions)
    ensures TablesStill(s.db, s'.db, t)
  {
    RowsStill(s.db, s'.db, t);
  }

  lemma PublisherFrame(c: Config, s: State, s': State, pub: Id, action: PublisherAction)
    requires PublisherNext(c, s, s', pub, action)
    ensures forall x :: x != pub ==> PublisherAt(s', x) == PublisherAt(s, x)
    ensures s'.operators == s.operators && s'.commits == s.commits
    ensures PublisherAt(s', pub).PubClaimed? ==> action.ClaimAction? && PublisherAt(s', pub).event == action.event
  {
  }

  lemma PublisherLogs(c: Config, s: State, s': State, pub: Id, action: PublisherAction, t: Id)
    requires PublisherNext(c, s, s', pub, action) && ClaimStill(s.db, PublisherAt(s, pub), t)
    ensures LogsStill(s, s', t)
  {
  }

  lemma PublisherStill(c: Config, s: State, s': State, pub: Id, action: PublisherAction, t: Id, now: int)
    requires PublisherNext(c, s, s', pub, action) && c.maxAttempts >= 1 && t in s.db.transactions
    requires NoneMoves(c, s, t, now) && ActorsStill(s, t)
    ensures StepStill(s, s', t)
    ensures forall x :: x != pub ==> PublisherAt(s', x) == PublisherAt(s, x)
    ensures s'.operators == s.operators && ClaimStill(s.db, PublisherAt(s', pub), t)
  {
    PublisherChange(c, s, s', pub, action);
    LeaseStill(c, s, s', t);
    PublisherFrame(c, s, s', pub, action);
    assert ClaimStill(s.db, PublisherAt(s, pub), t);
    PublisherLogs(c, s, s', pub, action, t);
    if action.ClaimAction? && EventIn(s.db.outbox, action.event, t) {
      assert !Movable(c, s, action.event, now);
    }
  }

  lemma SameLogsStill(s: State, s': State, t: Id)
    requires s'.logs == s.logs && forall p :: CommitOf(s, p) <= CommitOf(s', p)
    ensures LogsStill(s, s', t)
  {
    assert forall p :: Log(s', p) == Log(s, p);
  }

  lemma UpsertStill(db: Db, record: DeadLetter, t: Id)
    requires t in db.transactions && record.eventId.Some?
    requires EventIn(db.outbox, record.eventId.value, t) ==> Barred(db, record.eventId.value)
    ensures TablesStill(db, Upsert(db, record), t)
  {
    LettersStill(db, Upsert(db, record), t);
  }

  lemma MarkStill(db: Db, source: Source, at: int, t: Id)
    requires t in db.transactions
    ensures TablesStill(db, After(db, MarkDeadLetterPublished(db, source, at)), t)
  {
    var r := MarkDeadLetterPublished(db, source, at);
    if r.Ok? {
      assert r.value.0.deadLetters.Keys == db.deadLetters.Keys;
    } else {
      assert After(db, r) == db;
    }
    LettersStill(db, After(db, MarkDeadLetterPublished(db, source, at)), t);
  }

  /** The record of a log entry names the event of the entry. */
  lemma RecordNames(s: State, p: Place, o: nat, source: Source, at: int)
    requires o < |Log(s, p)| && EntryOk(s, p, o) && RowsOk(s.db.transactions, s.db.outbox) && Named(s.db)
    ensures RecordFromMessage(source, Log(s, p)[o].message, at).eventId == Some(Log(s, p)[o].origin)
  {
    PublishedIdentity(s.db.outbox[Log(s, p)[o].origin]);
  }

  lemma DeliveredStill(s: State, p: Place, o: nat, eventId: Id, at: int, t: Id)
    requires o < |Log(s, p)| && EntryOk(s, p, o) && t in s.db.transactions && RowsOk(s.db.transactions, s.db.outbox)
    requires InboxOk(s.db.transactions, s.db.outbox, s.db.processed)
    requires EventIn(s.db.outbox, Log(s, p)[o].origin, t) ==> Barred(s.db, Log(s, p)[o].origin)
    ensures TablesStill(s.db, After(s.db, Delivered(s, p, o, eventId, at)), t)
  {
    if Delivered(s, p, o, eventId, at).Ok? {
      DeliveryHandled(s, p, o, eventId, at);
      DeliveryStill(s.db, After(s.db, Delivered(s, p, o, eventId, at)), Log(s, p)[o].origin, eventId, at, t);
    } else {
      RowsStill(s.db, s.db, t);
    }
  }

  lemma RecordedStill(s: State, p: Place, o: nat, at: int, t: Id)
    requires ConsumerOf(p.topic).Some? && o < |Log(s, p)| && EntryOk(s, p, o) && t in s.db.transactions
    requires RowsOk(s.db.transactions, s.db.outbox) && Named(s.db)
    requires EventIn(s.db.outbox, Log(s, p)[o].origin, t) ==> Barred(s.db, Log(s, p)[o].origin)
    ensures TablesStill(s.db, DeadLettered(s, p, o, at), t)
  {
    RecordNames(s, p, o, SourceOf(p, o), at);
    UpsertStill(s.db, RecordFromMessage(SourceOf(p, o), Log(s, p)[o].message, at), t);
  }

  lemma HandleTables(c: Config, s: State, s': State, p: Place, eventId: Id, at: int, acked: bool, t: Id, now: int)
    requires Handles(s, s', p, eventId, at, acked) && Inv(c, s) && t in s.db.transactions && NoneMoves(c, s, t, now)
    ensures TablesStill(s.db, s'.db, t)
  {
    assert SessionOk(s, p) && EntryOk(s, p, SessionAt(s, p).phase.offset);
    WorkIsBarred(c, s, t, now, p);
    DeliveredStill(s, p, SessionAt(s, p).phase.offset, eventId, at, t);
  }

  lemma RecordTables(c: Config, s: State, s': State, p: Place, at: int, t: Id, now: int)
    requires Records(s, s', p, at) && Sane(c, s) && t in s.db.transactions && NoneMoves(c, s, t, now)
    ensures TablesStill(s.db, s'.db, t)
  {
    assert SessionOk(s, p) && EntryOk(s, p, SessionAt(s, p).phase.offset);
    WorkIsBarred(c, s, t, now, p);
    RecordedStill(s, p, SessionAt(s, p).phase.offset, at, t);
  }

  lemma ReaderTables(c: Config, s: State, s': State, p: Place, action: SessionAction, t: Id, now: int)
    requires SessionNext(s, s', p, action) && Sane(c, s) && t in s.db.transactions && NoneMoves(c, s, t, now)
    ensures TablesStill(s.db, s'.db, t)
  {
    match action
    case HandleAction(eventId, at, acked) => HandleTables(c, s, s', p, eventId, at, acked, t, now);
    case RecordAction(at) => RecordTables(c, s, s', p, at, t, now);
    case PublishDeadAction(at) => MarkStill(s.db, SourceOf(p, SessionAt(s, p).phase.offset), at, t);
    case _ => SameStill(s, s', p, action, t);
  }

  lemma SameStill(s: State, s': State, p: Place, action: SessionAction, t: Id)
    requires SessionNext(s, s', p, action) && !action.HandleAction? && !action.RecordAction? && !action.PublishDeadAction?
    requires t in s.db.transactions
    ensures TablesStill(s.db, s'.db, t)
  {
    assert s'.db == s.db;
    RowsStill(s.db, s.db, t);
  }

  lemma ReaderFrame(s: State, s': State, p: Place, action: SessionAction)
    requires SessionNext(s, s', p, action) && SessionOk(s, p)
    ensures s'.logs == s.logs && s'.publishers == s.publishers && s'.operators == s.operators
    ensures forall q :: CommitOf(s, q) <= CommitOf(s', q)
  {
  }

  lemma ReaderStill(c: Config, s: State, s': State, p: Place, action: SessionAction, t: Id, now: int)
    requires SessionNext(s, s', p, action) && Sane(c, s) && t in s.db.transactions && NoneMoves(c, s, t, now)
    ensures StepStill(s, s', t) && s'.publishers == s.publishers && s'.operators == s.operators
  {
    assert SessionOk(s, p);
    ReaderTables(c, s, s', p, action, t, now);
    ReaderFrame(s, s', p, action);
    SameLogsStill(s, s', t);
  }

  // ----- operators -----

  /** The event that a dead letter names is the origin of the entry it was made from. */
  lemma LetterOrigin(c: Config, s: State, source: Source)
    requires Sane(c, s) && source in s.db.deadLetters
    ensures source.offset < |Log(s, PlaceOf(source))|
    ensures s.db.deadLetters[source].eventId == Some(Log(s, PlaceOf(source))[source.offset].origin)
  {
    assert DeadOk(s, source) && EntryOk(s, PlaceOf(source), source.offset);
    RecordNames(s, PlaceOf(source), source.offset, source, 0);
  }

  /** A letter of the payment that the replay check lets through is barred. */
  lemma LookupIsBarred(c: Config, s: State, t: Id, now: int, source: Source, at: int)
    requires NoneMoves(c, s, t, now) && LetterFor(s.db, source, t) && at >= now
    requires CheckReplay(s.db.deadLetters[source], c.window, at).Ok?
    ensures BarredLetter(s.db, s.db, source)
  {
    var e := s.db.deadLetters[source].eventId.value;
    assert OpenLetter(s.db, source, e) && CheckReplay(s.db.deadLetters[source], c.window, now).Ok?;
    assert !Movable(c, s, e, now);
  }

  lemma OperatorFrame(c: Config, s: State, s': State, op: Id, action: OperatorAction)
    requires OperatorNext(c, s, s', op, action)
    ensures forall x :: x != op ==> OperatorAt(s', x) == OperatorAt(s, x)
    ensures s'.publishers == s.publishers && s'.commits == s.commits
    ensures s'.db.outbox == s.db.outbox && s'.db.processed == s.db.processed && s'.db.transactions == s.db.transactions
    ensures s'.db.deadLetters == s.db.deadLetters || (action.FinishAction? && OperatorAt(s, op).OpSent?)
  {
  }

  lemma FinishStill(db: Db, attempt: Id, source: Source, t: Id)
    requires t in db.transactions && !LetterFor(db, source, t)
    ensures TablesStill(db, After(db, FinishReplay(db, attempt, source, true)), t)
  {
    LettersStill(db, After(db, FinishReplay(db, attempt, source, true)), t);
  }

  lemma OperatorTables(c: Config, s: State, s': State, op: Id, action: OperatorAction, t: Id)
    requires OperatorNext(c, s, s', op, action) && t in s.db.transactions && OperatorStill(s.db, OperatorAt(s, op), t)
    ensures TablesStill(s.db, s'.db, t)
  {
    OperatorFrame(c, s, s', op, action);
    if action.FinishAction? && OperatorAt(s, op).OpSent? {
      FinishStill(s.db, OperatorAt(s, op).attempt, OperatorAt(s, op).source, t);
    } else {
      RowsStill(s.db, s'.db, t);
    }
  }

  lemma AppendLogs(s: State, p: Place, e: Id, m: Message, t: Id)
    requires EventIn(s.db.outbox, e, t) ==> Barred(s.db, e)
    ensures LogsStill(s, Append(s, p, e, m), t)
  {
  }

  lemma LogsStillToo(s: State, middle: State, s': State, t: Id)
    requires LogsStill(s, middle, t) && s'.logs == middle.logs && s'.commits == middle.commits
    ensures LogsStill(s, s', t)
  {
    assert forall p :: Log(s', p) == Log(middle, p) && CommitOf(s', p) == CommitOf(middle, p);
  }

  predicate Resends(action: OperatorAction) {
    action.SendAction? || (action.SendFailsAction? && action.appended)
  }

  lemma QuietLogs(c: Config, s: State, s': State, op: Id, action: OperatorAction, t: Id)
    requires OperatorNext(c, s, s', op, action) && !Resends(action)
    ensures LogsStill(s, s', t)
  {
    SameLogsStill(s, s', t);
  }

  lemma ResentLogs(c: Config, s: State, s': State, op: Id, action: OperatorAction, t: Id)
    requires OperatorNext(c, s, s', op, action) && Resends(action) && OperatorStill(s.db, OperatorAt(s, op), t)
    requires var source := OperatorAt(s, op).source;
             source in s.db.deadLetters && source.offset < |Log(s, PlaceOf(source))|
             && s.db.deadLetters[source].eventId == Some(Log(s, PlaceOf(source))[source.offset].origin)
    ensures LogsStill(s, s', t)
  {
    var source := OperatorAt(s, op).source;
    AppendLogs(s, Place(source.topic, action.partition), Log(s, PlaceOf(source))[source.offset].origin,
               ReplayMessage(s.db.deadLetters[source]), t);
    LogsStillToo(s, Resent(s, source, action.partition), s', t);
  }

  lemma OperatorLogs(c: Config, s: State, s': State, op: Id, action: OperatorAction, t: Id)
    requires OperatorNext(c, s, s', op, action) && Sane(c, s) && OperatorStill(s.db, OperatorAt(s, op), t)
    ensures LogsStill(s, s', t)
  {
    if Resends(action) {
      OperatorSources(c, s);
      assert SourceOfPhase(OperatorAt(s, op), s.db.deadLetters);
      LetterOrigin(c, s, OperatorAt(s, op).source);
      ResentLogs(c, s, s', op, action, t);
    } else {
      QuietLogs(c, s, s', op, action, t);
    }
  }

  lemma OperatorPhase(c: Config, s: State, s': State, op: Id, action: OperatorAction, t: Id, now: int)
    requires OperatorNext(c, s, s', op, action) && NoneMoves(c, s, t, now) && OperatorStill(s.db, OperatorAt(s, op), t)
    requires action.LookupAction? ==> action.now >= now
    ensures OperatorStill(s.db, OperatorAt(s', op), t)
  {
    if action.LookupAction? && LetterFor(s.db, action.source, t) {
      LookupIsBarred(c, s, t, now, action.source, action.now);
    }
  }

  lemma RequeueStill(c: Config, s: State, s': State, e: Id, at: int, t: Id)
    requires Requeues(s, s', e, at) && t in s.db.transactions
    ensures TablesStill(s.db, s'.db, t)
  {
    if Outbox.Requeue(s.db, e, at).Err? {
      assert s' == s;
    } else {
      assert SameEvent(s.db.outbox[e], s'.db.outbox[e]);
    }
    RowsStill(s.db, s'.db, t);
  }

  lemma MaintenanceStill(c: Config, s: State, s': State, action: MaintenanceAction, t: Id)
    requires MaintenanceNext(c, s, s', action) && t in s.db.transactions
    ensures StepStill(s, s', t) && s'.publishers == s.publishers && s'.operators == s.operators
  {
    SameLogsStill(s, s', t);
    if action.RequeueAction? {
      RequeueStill(c, s, s', action.event, action.now, t);
    } else {
      PruneStill(s.db, action.now - c.keep, c.batch, action.busy, action.victims, t);
    }
  }

  // ----- every step, every future -----

  lemma PublisherKeepsStuck(c: Config, s: State, s': State, pub: Id, action: PublisherAction, t: Id, now: int)
    requires PublisherNext(c, s, s', pub, action) && c.maxAttempts >= 1 && SourcesKnown(s)
    requires DeadLettersGrow(s.db.deadLetters, s'.db.deadLetters) && Stuck(c, s, t, now)
    ensures StepStill(s, s', t) && ActorsStill(s', t)
  {
    PublisherStill(c, s, s', pub, action, t, now);
    OthersStayStill(s, s', t);
    ClaimStaysStill(s.db, s'.db, PublisherAt(s', pub), t);
  }

  lemma OperatorStillAll(c: Config, s: State, s': State, op: Id, action: OperatorAction, t: Id)
    requires OperatorNext(c, s, s', op, action) && Sane(c, s) && t in s.db.transactions && OperatorStill(s.db, OperatorAt(s, op), t)
    ensures StepStill(s, s', t) && s'.publishers == s.publishers
    ensures forall x :: x != op ==> OperatorAt(s', x) == OperatorAt(s, x)
  {
    OperatorTables(c, s, s', op, action, t);
    OperatorLogs(c, s, s', op, action, t);
    OperatorFrame(c, s, s', op, action);
  }

  lemma OperatorActors(c: Config, s: State, s': State, op: Id, action: OperatorAction, t: Id, now: int)
    requires OperatorNext(c, s, s', op, action) && SourcesKnown(s) && DeadLettersGrow(s.db.deadLetters, s'.db.deadLetters)
    requires Stuck(c, s, t, now) && TablesStill(s.db, s'.db, t) && (action.LookupAction? ==> action.now >= now)
    requires s'.publishers == s.publishers && forall x :: x != op ==> OperatorAt(s', x) == OperatorAt(s, x)
    ensures ActorsStill(s', t)
  {
    OthersStayStill(s, s', t);
    OperatorPhase(c, s, s', op, action, t, now);
    NextPhaseStays(c, s, s', op, action, t);
  }

  lemma OperatorKeepsStuck(c: Config, s: State, s': State, op: Id, action: OperatorAction, t: Id, now: int)
    requires OperatorNext(c, s, s', op, action) && Sane(c, s) && Persists(s, s') && Stuck(c, s, t, now)
    requires action.LookupAction? ==> action.now >= now
    ensures StepStill(s, s', t) && ActorsStill(s', t)
  {
    OperatorSources(c, s);
    assert OperatorStill(s.db, OperatorAt(s, op), t);
    OperatorStillAll(c, s, s', op, action, t);
    OperatorActors(c, s, s', op, action, t, now);
  }

  lemma NextPhaseStays(c: Config, s: State, s': State, op: Id, action: OperatorAction, t: Id)
    requires OperatorNext(c, s, s', op, action) && SourcesKnown(s) && DeadLettersGrow(s.db.deadLetters, s'.db.deadLetters)
    requires TablesStill(s.db, s'.db, t) && OperatorStill(s.db, OperatorAt(s', op), t)
    ensures OperatorStill(s'.db, OperatorAt(s', op), t)
  {
    assert SourceOfPhase(OperatorAt(s, op), s.db.deadLetters);
    OperatorStaysStill(s.db, s'.db, OperatorAt(s', op), t);
  }

  /** A step that moves neither publishers nor operators. */
  lemma IdleActors(s: State, s': State, t: Id)
    requires SourcesKnown(s) && DeadLettersGrow(s.db.deadLetters, s'.db.deadLetters) && TablesStill(s.db, s'.db, t) && ActorsStill(s, t)
    requires s'.publishers == s.publishers && s'.operators == s.operators
    ensures ActorsStill(s', t)
  {
    assert forall pub :: PublisherAt(s', pub) == PublisherAt(s, pub);
    assert forall op :: OperatorAt(s', op) == OperatorAt(s, op);
    OthersStayStill(s, s', t);
  }

  lemma RequestStill(s: State, s': State, action: RequestAction, t: Id)
    requires RequestNext(s, s', action) && t in s.db.transactions
    ensures StepStill(s, s', t) && s'.publishers == s.publishers && s'.operators == s.operators
  {
    match action
    case PayAction(key, hash, tx, eventId, at) => PayStill(s, s', key, hash, tx, eventId, at, t);
    case FundAction(key, hash, tx, eventId, at) => FundStill(s, s', key, hash, tx, eventId, at, t);
  }

  lemma AnyStepStill(c: Config, s: State, s': State, step: Step, t: Id, now: int)
    requires Sane(c, s) && c.maxAttempts >= 1 && Next(c, s, s', step) && Orderly(step, now) && Stuck(c, s, t, now) && Persists(s, s')
    ensures StepStill(s, s', t) && ActorsStill(s', t)
  {
    OperatorSources(c, s);
    if step.PublisherStep? {
      PublisherKeepsStuck(c, s, s', step.pub, step.publish, t, now);
    } else if step.OperatorStep? {
      OperatorKeepsStuck(c, s, s', step.op, step.operate, t, now);
    } else {
      if step.RequestStep? {
        RequestStill(s, s', step.request, t);
      } else if step.SessionStep? {
        ReaderStill(c, s, s', step.place, step.consume, t, now);
      } else {
        MaintenanceStill(c, s, s', step.maintain, t);
      }
      IdleActors(s, s', t);
    }
  }

  lemma StepKeepsStuck(c: Config, s: State, s': State, step: Step, t: Id, now: int)
    requires Sane(c, s) && c.maxAttempts >= 1 && Next(c, s, s', step) && Orderly(step, now) && Stuck(c, s, t, now)
    ensures Stuck(c, s', t, now)
  {
    NextInv(c, s, s', step);
    AnyStepStill(c, s, s', step, t, now);
    StaysStuck(c, s, s', t, now);
  }

  ghost predicate SaneAndStuck(c: Config, s: State, t: Id, now: int) {
    Sane(c, s) && Stuck(c, s, t, now)
  }

  lemma StuckAt(c: Config, now: int, path: Run, i: nat, t: Id)
    requires c.maxAttempts >= 1 && IsPath(c, now, path) && i < |path.steps| && SaneAndStuck(c, path.states[i], t, now)
    ensures SaneAndStuck(c, path.states[i + 1], t, now)
  {
    assert OrderlyAt(c, now, path, i);
    SaneAt(c, now, path, i);
    StepKeepsStuck(c, path.states[i], path.states[i + 1], path.steps[i], t, now);
  }

  /** From a quiet state in which none of its events can move, no future decides the payment. */
  lemma StuckForever(c: Config, s: State, s': State, t: Id, now: int)
    requires c.maxAttempts >= 1 && Sane(c, s) && Quiet(s) && PendingAt(s, t) && !CanMove(c, s, t, now)
    requires Leads(c, now, s, s')
    ensures PendingAt(s', t)
  {
    var path :| IsPath(c, now, path) && Joins(path, s, s');
    QuietIsStill(c, s, t, now);
    var stuck := (x: State) => SaneAndStuck(c, x, t, now);
    forall i | 0 <= i < |path.states| - 1 ensures Passes(path.states, stuck, i) {
      if SaneAndStuck(c, path.states[i], t, now) {
        StuckAt(c, now, path, i, t);
      }
    }
    Along(path.states, stuck, |path.steps|);
  }

  lemma QuietIsStill(c: Config, s: State, t: Id, now: int)
    requires Quiet(s) && PendingAt(s, t) && !CanMove(c, s, t, now)
    ensures Stuck(c, s, t, now)
  {
    forall e | EventIn(s.db.outbox, e, t) ensures !Movable(c, s, e, now) {
      assert EventOf(s, e, t);
    }
  }
}
