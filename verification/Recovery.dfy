/** Recovery: the publishers' leases, operator replays and inbox retention. */
module Recovery {
  import opened Domain
  import opened Tables
  import opened Handlers
  import opened Payments
  import opened DeadLetters
  import opened Invariants
  import opened Pipeline
  import opened PipelineInvariant
  import opened PipelineSteps
  import opened PipelineTheorems
  import opened Preservation
  import opened Runs

  // ----- leases -----

  /**
    In every reachable state, with any number of publishers, stops and late
    holders: a PUBLISHED row's event is in the broker's log, and the attempt
    counter agrees with the status.
   */
  lemma LeaseSafety(c: Config, run: Run, i: nat, e: Id)
    requires ValidConfig(c) && IsRun(c, run) && i < |run.states| && e in run.states[i].db.outbox
    ensures Outbox.AttemptsOk(run.states[i].db.outbox[e], c.maxAttempts)
    ensures run.states[i].db.outbox[e].status == OutboxPublished ==> InLogs(run.states[i], e)
  {
    RunInv(c, run, i);
    assert IsPublished(run.states[i].db, e) ==> InLogs(run.states[i], e);
  }

  /** A PUBLISHED row never changes again. */
  lemma PublishedForever(c: Config, run: Run, e: Id, i: nat, j: nat)
    requires ValidConfig(c) && IsRun(c, run) && i <= j < |run.states| && IsPublished(run.states[i].db, e)
    ensures e in run.states[j].db.outbox && run.states[j].db.outbox[e] == run.states[i].db.outbox[e]
  {
    RunPersists(c, run, i, j);
    assert RowGrows(run.states[i].db.outbox[e], run.states[j].db.outbox[e]);
  }

  lemma PublisherKeepsDead(c: Config, s: State, s': State, pub: Id, action: PublisherAction, e: Id)
    requires PublisherNext(c, s, s', pub, action) && e in s.db.outbox && s.db.outbox[e].status == OutboxDeadLettered
    ensures e in s'.db.outbox && s'.db.outbox[e] == s.db.outbox[e]
  {
  }

  lemma ChangeKeepsRow(db: Db, db': Db, change: Change, maxAttempts: int, e: Id)
    requires Changed(db, db', change, maxAttempts) && !change.Lease? && !change.Requeue? && e in db.outbox
    ensures e in db'.outbox && db'.outbox[e] == db.outbox[e]
  {
    if change.Deliver? {
      HandledFrame(db, db', change.origin, change.eventId, change.now);
      HandledGrows(db, db', change.origin, change.eventId, change.now);
    }
  }

  lemma RequeueKeepsOthers(s: State, s': State, x: Id, now: int, e: Id)
    requires Requeues(s, s', x, now) && e in s.db.outbox
    ensures x == e || (e in s'.db.outbox && s'.db.outbox[e] == s.db.outbox[e])
  {
  }

  /** Only an operator's requeue takes a row out of DEAD_LETTERED. */
  lemma OnlyRequeueRevives(c: Config, s: State, s': State, step: Step, e: Id)
    requires Inv(c, s) && c.maxAttempts >= 1 && Next(c, s, s', step)
    requires e in s.db.outbox && s.db.outbox[e].status == OutboxDeadLettered
    requires e in s'.db.outbox && s'.db.outbox[e].status != OutboxDeadLettered
    ensures step.MaintenanceStep? && step.maintain.RequeueAction? && step.maintain.event == e
  {
    var change := NextChange(c, s, s', step);
    RevivedBy(c, s, s', step, change, e);
  }

  lemma RevivedBy(c: Config, s: State, s': State, step: Step, change: Change, e: Id)
    requires Next(c, s, s', step) && Changed(s.db, s'.db, change, c.maxAttempts)
    requires change.Lease? ==> step.PublisherStep?
    requires change.Requeue? ==> step.MaintenanceStep? && step.maintain.RequeueAction?
    requires e in s.db.outbox && s.db.outbox[e].status == OutboxDeadLettered
    requires e in s'.db.outbox && s'.db.outbox[e].status != OutboxDeadLettered
    ensures step.MaintenanceStep? && step.maintain.RequeueAction? && step.maintain.event == e
  {
    if change.Lease? {
      PublisherKeepsDead(c, s, s', step.pub, step.publish, e);
    } else if change.Requeue? {
      RequeueKeepsOthers(s, s', step.maintain.event, step.maintain.now, e);
    } else {
      ChangeKeepsRow(s.db, s'.db, change, c.maxAttempts, e);
    }
  }

  // ----- replays -----

  /**
    Over interleaved operators and recovered attempts: the counter, the published
    attempts and the audit rows agree, all are 1 exactly when the dead letter is
    REPUBLISHED, and at most one attempt is pending.
   */
  lemma ReplayAccounting(c: Config, run: Run, i: nat, source: Source)
    requires ValidConfig(c) && IsRun(c, run) && i < |run.states| && source in run.states[i].db.deadLetters
    ensures var db := run.states[i].db;
            && db.deadLetters[source].replayCount == |PublishedAttempts(db.attempts, source)|
            && db.deadLetters[source].replayCount == ReplayAudits(db.actions, source)
            && (db.deadLetters[source].replayCount == 1 <==> db.deadLetters[source].state == Republished)
            && (db.deadLetters[source].replayCount == 0 <==> db.deadLetters[source].state == Open)
            && forall a, b :: a in db.attempts && b in db.attempts && RivalReplays(db.attempts[a], db.attempts[b]) ==> a == b
  {
    RunInv(c, run, i);
    var db := run.states[i].db;
    assert db.deadLetters[source].source == source && ReplayOk(db.deadLetters[source], db.attempts, db.actions);
  }

  /** An attempt that was finished or recovered as stale can never finish later. */
  lemma FinishedForever(c: Config, run: Run, attempt: Id, i: nat, j: nat, published: bool)
    requires ValidConfig(c) && IsRun(c, run) && i <= j < |run.states|
    requires attempt in run.states[i].db.attempts && run.states[i].db.attempts[attempt].result != AttemptPending
    ensures attempt in run.states[j].db.attempts
    ensures run.states[j].db.attempts[attempt] == run.states[i].db.attempts[attempt]
    ensures var source := run.states[i].db.attempts[attempt].deadLetter;
            FinishReplay(run.states[j].db, attempt, source, published) == Err(NoPendingAttempt)
  {
    RunPersists(c, run, i, j);
    assert AttemptGrows(run.states[i].db.attempts[attempt], run.states[j].db.attempts[attempt]);
  }

  // ----- retention -----

  predicate IsPrune(step: Step) {
    step.MaintenanceStep? && step.maintain.PruneAction?
  }

  /** Every prune in steps m to j - 1 happens by the given time. */
  predicate PrunesBy(run: Run, m: nat, j: nat, time: int)
    requires j <= |run.steps|
  {
    forall n :: m <= n < j && IsPrune(run.steps[n]) ==> run.steps[n].maintain.now <= time
  }

  lemma HandledRemembers(db: Db, db': Db, e: Id, eventId: Id, now: int)
    requires Handled(db, db', e, eventId, now)
    ensures db.processed.Keys <= db'.processed.Keys
  {
    if row :| RiskFirst(db, db', e, row, eventId, now) {
      assert db'.processed == db.processed[(RiskService, e) := row];
    } else if row, outcome :| LedgerFirst(db, db', e, row, outcome, eventId, now) {
      assert db'.processed == db.processed[(LedgerService, e) := row];
    }
  }

  lemma ChangeRemembers(db: Db, db': Db, change: Change, maxAttempts: int)
    requires Changed(db, db', change, maxAttempts) && !change.Trim?
    ensures db.processed.Keys <= db'.processed.Keys
  {
    if change.Deliver? {
      HandledRemembers(db, db', change.origin, change.eventId, change.now);
    }
  }

  /** Nothing but a prune removes an inbox row. */
  lemma OnlyPruneForgets(c: Config, run: Run, i: nat, k: InboxKey)
    requires ValidConfig(c) && IsRun(c, run) && i < |run.steps| && k in run.states[i].db.processed
    requires k !in run.states[i + 1].db.processed
    ensures IsPrune(run.steps[i])
  {
    var change := ChangeAt(c, run, i);
    if !change.Trim? {
      ChangeRemembers(run.states[i].db, run.states[i + 1].db, change, c.maxAttempts);
    }
  }

  /** A prune leaves the inbox row of an event that a dead letter guards at that time. */
  lemma GuardedRowStays(c: Config, run: Run, i: nat, source: Source, k: InboxKey)
    requires ValidConfig(c) && IsRun(c, run) && i < |run.steps| && k in run.states[i].db.processed
    requires source in run.states[i].db.deadLetters
    requires IsPrune(run.steps[i]) ==> Guards(run.states[i].db.deadLetters[source], k.1, run.steps[i].maintain.now - c.keep)
    ensures k in run.states[i + 1].db.processed
  {
    if k !in run.states[i + 1].db.processed {
      OnlyPruneForgets(c, run, i, k);
    }
    assert StepAt(c, run, i);
  }

  lemma OpenBefore(c: Config, run: Run, m: nat, j: nat, source: Source)
    requires ValidConfig(c) && IsRun(c, run) && m <= j < |run.states| && source in run.states[m].db.deadLetters
    requires source in run.states[j].db.deadLetters && run.states[j].db.deadLetters[source].state == Open
    ensures run.states[m].db.deadLetters[source].state == Open
    ensures run.states[m].db.deadLetters[source].eventId == run.states[j].db.deadLetters[source].eventId
  {
    RunPersists(c, run, m, j);
    assert DeadLetterGrows(run.states[m].db.deadLetters[source], run.states[j].db.deadLetters[source]);
  }

  /** As long as a dead letter that names the event stays OPEN, the event's inbox rows outlive any number of prunes. */
  lemma {:induction false} PruneSparesOpen(c: Config, run: Run, m: nat, j: nat, source: Source, k: InboxKey)
    requires ValidConfig(c) && IsRun(c, run) && m <= j < |run.states| && k in run.states[m].db.processed
    requires source in run.states[m].db.deadLetters && run.states[m].db.deadLetters[source].eventId == Some(k.1)
    requires source in run.states[j].db.deadLetters && run.states[j].db.deadLetters[source].state == Open
    ensures k in run.states[j].db.processed
    decreases j
  {
    if m < j {
      RunPersists(c, run, m, j - 1);
      OpenBefore(c, run, j - 1, j, source);
      PruneSparesOpen(c, run, m, j - 1, source, k);
      OpenBefore(c, run, m, j - 1, source);
      GuardedRowStays(c, run, j - 1, source, k);
    }
  }

  lemma LookedUpRecently(c: Config, run: Run, i: nat, j: nat)
    requires ValidConfig(c) && IsRun(c, run) && i < |run.steps| && i <= j < |run.states|
    requires run.steps[i].OperatorStep? && run.steps[i].operate.LookupAction?
    ensures var source := run.steps[i].operate.source;
            && source in run.states[i].db.deadLetters && source in run.states[j].db.deadLetters
            && run.states[j].db.deadLetters[source].eventId == run.states[i].db.deadLetters[source].eventId
            && run.states[j].db.deadLetters[source].firstFailedAt >= run.steps[i].operate.now - c.window
  {
    var source := run.steps[i].operate.source;
    assert StepAt(c, run, i);
    assert CheckReplay(run.states[i].db.deadLetters[source], c.window, run.steps[i].operate.now).Ok?;
    RunPersists(c, run, i, j);
    assert DeadLetterGrows(run.states[i].db.deadLetters[source], run.states[j].db.deadLetters[source]);
  }

  /**
    Replay window and retention agree. An event that passed the replay check at
    time r keeps whatever inbox rows it has, or gets, over the whole run as long as
    prunes come by r + (retention - window), even if the replay has already closed
    its dead letter. The clocks of the operators and of the pruning job need only
    agree with each other, not with the consumers'.
   */
  lemma {:induction false} ReplayOutlivesPrune(c: Config, run: Run, i: nat, m: nat, j: nat, k: InboxKey)
    requires ValidConfig(c) && IsRun(c, run) && i <= m <= j < |run.states| && i < |run.steps|
    requires run.steps[i].OperatorStep? && run.steps[i].operate.LookupAction?
    requires run.steps[i].operate.source in run.states[i].db.deadLetters
    requires run.states[i].db.deadLetters[run.steps[i].operate.source].eventId == Some(k.1)
    requires PrunesBy(run, m, j, run.steps[i].operate.now + (c.keep - c.window)) && k in run.states[m].db.processed
    ensures k in run.states[j].db.processed
    decreases j
  {
    if m < j {
      ReplayOutlivesPrune(c, run, i, m, j - 1, k);
      LookedUpRecently(c, run, i, j - 1);
      GuardedRowStays(c, run, j - 1, run.steps[i].operate.source, k);
    }
  }

  /** Every inbox row of the event was last seen at or after r. */
  ghost predicate SeenSince(processed: map<InboxKey, ProcessedRow>, eventId: Id, r: int) {
    forall k :: k in processed && k.1 == eventId ==> processed[k].lastSeen >= r
  }

  lemma ChangeSeen(db: Db, db': Db, change: Change, maxAttempts: int, eventId: Id, r: int)
    requires Changed(db, db', change, maxAttempts) && SeenSince(db.processed, eventId, r)
    requires change.Deliver? ==> change.now >= r
    ensures SeenSince(db'.processed, eventId, r)
  {
    if change.Deliver? {
      HandledSeen(db, db', change.origin, change.eventId, change.now, eventId, r);
    }
  }

  lemma HandledSeen(db: Db, db': Db, e: Id, newId: Id, now: int, eventId: Id, r: int)
    requires Handled(db, db', e, newId, now) && SeenSince(db.processed, eventId, r) && now >= r
    ensures SeenSince(db'.processed, eventId, r)
  {
    if row :| RiskFirst(db, db', e, row, newId, now) {
      SeenUpdate(db.processed, (RiskService, e), row, eventId, r);
    } else if row, outcome :| LedgerFirst(db, db', e, row, outcome, newId, now) {
      SeenUpdate(db.processed, (LedgerService, e), row, eventId, r);
    } else {
      var k :| Repeated(db, db', k, now) && k.1 == e;
      SeenUpdate(db.processed, k, db.processed[k].(lastSeen := now), eventId, r);
    }
  }

  lemma SeenUpdate(processed: map<InboxKey, ProcessedRow>, k: InboxKey, row: ProcessedRow, eventId: Id, r: int)
    requires SeenSince(processed, eventId, r) && row.lastSeen >= r
    ensures SeenSince(processed[k := row], eventId, r)
  {
  }

  lemma {:induction false} RunSeen(c: Config, run: Run, i: nat, j: nat, eventId: Id, r: int)
    requires ValidConfig(c) && IsRun(c, run) && i <= j < |run.states|
    requires !EventProcessed(run.states[i].db, eventId)
    requires forall m :: i <= m < j && HandlerClock(run.steps[m]).Some? ==> HandlerClock(run.steps[m]).value >= r
    ensures SeenSince(run.states[j].db.processed, eventId, r)
    decreases j
  {
    if i < j {
      RunSeen(c, run, i, j - 1, eventId, r);
      var change := ChangeAt(c, run, j - 1);
      ChangeSeen(run.states[j - 1].db, run.states[j].db, change, c.maxAttempts, eventId, r);
    }
  }

  lemma RecentRowStays(c: Config, run: Run, i: nat, k: InboxKey, r: int)
    requires ValidConfig(c) && IsRun(c, run) && i < |run.steps| && k in run.states[i].db.processed
    requires SeenSince(run.states[i].db.processed, k.1, r)
    requires IsPrune(run.steps[i]) ==> run.steps[i].maintain.now <= r + c.keep
    ensures k in run.states[i + 1].db.processed
  {
    if k !in run.states[i + 1].db.processed {
      OnlyPruneForgets(c, run, i, k);
    }
    assert StepAt(c, run, i);
  }

  /**
    If the consumers' clocks do not run behind the operator's, the promise is the
    full retention period: a replayed event that nobody had processed at time r
    keeps the rows its replay creates as long as prunes come by r + retention.
   */
  lemma {:induction false} ReplayKeepsFullRetention(c: Config, run: Run, i: nat, m: nat, j: nat, k: InboxKey, r: int)
    requires ValidConfig(c) && IsRun(c, run) && i <= m <= j < |run.states|
    requires !EventProcessed(run.states[i].db, k.1)
    requires forall n :: i <= n < j && HandlerClock(run.steps[n]).Some? ==> HandlerClock(run.steps[n]).value >= r
    requires PrunesBy(run, m, j, r + c.keep) && k in run.states[m].db.processed
    ensures k in run.states[j].db.processed
    decreases j
  {
    if m < j {
      ReplayKeepsFullRetention(c, run, i, m, j - 1, k, r);
      RunSeen(c, run, i, j - 1, k.1, r);
      RecentRowStays(c, run, j - 1, k, r);
    }
  }

  // ----- evaluating a payment once -----

  /** At most one risk event per payment, each backed by the risk service's inbox row. */
  ghost predicate EvaluatedOnce(outbox: map<Id, OutboxRow>, processed: map<InboxKey, ProcessedRow>) {
    && (forall t, e, e' {:trigger RiskOf(outbox[e], t), RiskOf(outbox[e'], t)} ::
          e in outbox && e' in outbox && RiskOf(outbox[e], t) && RiskOf(outbox[e'], t) ==> e == e')
    && (forall t, e, e' {:trigger RiskOf(outbox[e], t), CreatedOf(outbox[e'], t)} ::
          e in outbox && e' in outbox && RiskOf(outbox[e], t) && CreatedOf(outbox[e'], t) ==> (RiskService, e') in processed)
  }

  predicate PrunesRisk(step: Step) {
    step.MaintenanceStep? && step.maintain.PruneAction? && exists k :: k in step.maintain.victims && k.0 == RiskService
  }

  lemma AddedRowOnce(outbox: map<Id, OutboxRow>, outbox': map<Id, OutboxRow>, processed: map<InboxKey, ProcessedRow>,
                     processed': map<InboxKey, ProcessedRow>)
    requires EvaluatedOnce(outbox, processed) && processed.Keys <= processed'.Keys
    requires forall e :: e in outbox' ==>
      if e in outbox then SameEvent(outbox[e], outbox'[e])
      else !outbox'[e].eventType.RiskEvaluatedEvent? && (outbox'[e].eventType == TransactionCreated ==>
             forall r :: r in outbox ==> !RiskOf(outbox[r], outbox'[e].aggregate))
    ensures EvaluatedOnce(outbox', processed')
  {
    forall t, e, e' | e in outbox' && e' in outbox' && RiskOf(outbox'[e], t) && RiskOf(outbox'[e'], t) ensures e == e' {
      assert RiskOf(outbox[e], t) && RiskOf(outbox[e'], t);
    }
    forall t, e, e' | e in outbox' && e' in outbox' && RiskOf(outbox'[e], t) && CreatedOf(outbox'[e'], t)
      ensures (RiskService, e') in processed'
    {
      assert RiskOf(outbox[e], t);
      if e' in outbox {
        assert CreatedOf(outbox[e'], t);
      }
    }
  }

  lemma RiskFirstOnce(db: Db, db': Db, e: Id, row: ProcessedRow, eventId: Id, now: int)
    requires EvaluatedOnce(db.outbox, db.processed) && CreatedOnce(db.transactions, db.outbox)
    requires RiskFirst(db, db', e, row, eventId, now)
    ensures EvaluatedOnce(db'.outbox, db'.processed)
  {
    var outbox, outbox', created := db.outbox, db'.outbox, db.outbox[e];
    assert CreatedOf(created, created.aggregate);
    forall t, r, r' | r in outbox' && r' in outbox' && RiskOf(outbox'[r], t) && RiskOf(outbox'[r'], t) ensures r == r' {
      if r in outbox { assert RiskOf(outbox[r], t); }
      if r' in outbox { assert RiskOf(outbox[r'], t); }
    }
    forall t, r, e' | r in outbox' && e' in outbox' && RiskOf(outbox'[r], t) && CreatedOf(outbox'[e'], t)
      ensures (RiskService, e') in db'.processed
    {
      assert CreatedOf(outbox[e'], t);
      if r in outbox { assert RiskOf(outbox[r], t); }
    }
  }

  lemma HandledOnce(db: Db, db': Db, e: Id, eventId: Id, now: int)
    requires Handled(db, db', e, eventId, now)
    requires EvaluatedOnce(db.outbox, db.processed) && CreatedOnce(db.transactions, db.outbox)
    ensures EvaluatedOnce(db'.outbox, db'.processed)
  {
    if row :| RiskFirst(db, db', e, row, eventId, now) {
      RiskFirstOnce(db, db', e, row, eventId, now);
    } else if row, outcome :| LedgerFirst(db, db', e, row, outcome, eventId, now) {
      LedgerFirstOnce(db, db', e, row, outcome, eventId, now);
    } else {
      var k :| Repeated(db, db', k, now) && k.1 == e;
      TrimOnce(db.outbox, db.processed, db'.processed);
    }
  }

  lemma LedgerFirstOnce(db: Db, db': Db, e: Id, row: ProcessedRow, outcome: RiskEvaluated, eventId: Id, now: int)
    requires EvaluatedOnce(db.outbox, db.processed) && LedgerFirst(db, db', e, row, outcome, eventId, now)
    ensures EvaluatedOnce(db'.outbox, db'.processed)
  {
  }

  lemma PayOnce(db: Db, key: Id, hash: string, tx: Transaction, eventId: Id, now: int)
    requires NewPayment(tx) && RowsOk(db.transactions, db.outbox) && EvaluatedOnce(db.outbox, db.processed)
    ensures var db' := After(db, CreatePayment(db, key, hash, tx, eventId, now)); EvaluatedOnce(db'.outbox, db'.processed)
  {
  }

  lemma FundOnce(db: Db, db': Db, change: Change, maxAttempts: int)
    requires Changed(db, db', change, maxAttempts) && change.Fund? && EvaluatedOnce(db.outbox, db.processed)
    ensures EvaluatedOnce(db'.outbox, db'.processed)
  {
    AddedRowOnce(db.outbox, db'.outbox, db.processed, db'.processed);
  }

  lemma LeasedOnce(outbox: map<Id, OutboxRow>, outbox': map<Id, OutboxRow>, processed: map<InboxKey, ProcessedRow>)
    requires EvaluatedOnce(outbox, processed) && OutboxGrows(outbox, outbox') && outbox'.Keys == outbox.Keys
    ensures EvaluatedOnce(outbox', processed)
  {
    AddedRowOnce(outbox, outbox', processed, processed);
  }

  lemma ChangeOnce(db: Db, db': Db, change: Change, maxAttempts: int)
    requires Changed(db, db', change, maxAttempts) && RowsOk(db.transactions, db.outbox)
    requires EvaluatedOnce(db.outbox, db.processed) && CreatedOnce(db.transactions, db.outbox)
    requires change.Trim? ==> forall k :: k in change.victims ==> k.0 != RiskService
    ensures EvaluatedOnce(db'.outbox, db'.processed)
  {
    match change
    case Deliver(e, eventId, now) => HandledOnce(db, db', e, eventId, now);
    case Pay(key, hash, tx, eventId, now) => PayOnce(db, key, hash, tx, eventId, now);
    case Trim(_, _) => TrimOnce(db.outbox, db.processed, db'.processed);
    case Fund(_, _, _, _, _) => FundOnce(db, db', change, maxAttempts);
    case Lease => LeasedOnce(db.outbox, db'.outbox, db.processed);
    case Requeue(_) => LeasedOnce(db.outbox, db'.outbox, db.processed);
    case _ => ChangeLeavesEvents(db, db', change, maxAttempts);
  }

  lemma ChangeLeavesEvents(db: Db, db': Db, change: Change, maxAttempts: int)
    requires Changed(db, db', change, maxAttempts)
    requires change.Same? || change.Store? || change.Mark? || change.Start? || change.Finish?
    ensures db'.outbox == db.outbox && db'.processed == db.processed
  {
  }

  lemma TrimOnce(outbox: map<Id, OutboxRow>, processed: map<InboxKey, ProcessedRow>, processed': map<InboxKey, ProcessedRow>)
    requires EvaluatedOnce(outbox, processed)
    requires forall k :: k in processed && k.0 == RiskService ==> k in processed'
    ensures EvaluatedOnce(outbox, processed')
  {
  }

  /** As long as no prune removes a risk-service inbox row, no payment is evaluated twice. */
  lemma {:induction false} RiskEvaluatedOnce(c: Config, run: Run, i: nat)
    requires ValidConfig(c) && IsRun(c, run) && i < |run.states|
    requires forall j :: 0 <= j < i ==> !PrunesRisk(run.steps[j])
    ensures EvaluatedOnce(run.states[i].db.outbox, run.states[i].db.processed)
  {
    if i > 0 {
      RiskEvaluatedOnce(c, run, i - 1);
      EventsAt(c, run, i - 1);
      var change := ChangeAt(c, run, i - 1);
      assert !PrunesRisk(run.steps[i - 1]);
      ChangeOnce(run.states[i - 1].db, run.states[i].db, change, c.maxAttempts);
    }
  }

  /** The condition is exact: a delivered created event adds a risk event if and only if its inbox row is gone. */
  lemma EvaluatedAgainIffForgotten(c: Config, s: State, e: Id, partition: nat, offset: nat, eventId: Id, now: int)
    requires Inv(c, s) && e in s.db.outbox && s.db.outbox[e].eventType == TransactionCreated
    requires e != "" && s.db.outbox[e].aggregate != "" && eventId !in s.db.outbox
    ensures var db' := After(s.db, HandleRow(s.db, e, partition, offset, eventId, now));
            (eventId in db'.outbox && RiskOf(db'.outbox[eventId], s.db.outbox[e].aggregate)) <==> (RiskService, e) !in s.db.processed
  {
    assert s.db.outbox[e].id == e && RowOk(s.db.transactions, s.db.outbox[e]) && TxOk(s.db.transactions[s.db.outbox[e].aggregate]);
    if (RiskService, e) in s.db.processed {
      assert s.db.processed[(RiskService, e)].hash == Sha256(s.db.outbox[e].payload);
    }
    CreatedDelivery(s.db, e, partition, offset, eventId, now);
  }

  lemma CreatedDelivery(db: Db, e: Id, partition: nat, offset: nat, eventId: Id, now: int)
    requires e in db.outbox && e != "" && db.outbox[e].id == e && RowOk(db.transactions, db.outbox[e])
    requires db.outbox[e].eventType == TransactionCreated && db.outbox[e].aggregate != "" && eventId !in db.outbox
    requires TxOk(Subject(db, e))
    requires (RiskService, e) in db.processed ==> db.processed[(RiskService, e)].hash == Sha256(db.outbox[e].payload)
    ensures var r := HandleRow(db, e, partition, offset, eventId, now);
            && r.Ok?
            && if (RiskService, e) in db.processed then r.value.0.outbox == db.outbox
               else r.value.0.outbox == db.outbox[eventId := RiskRow(Subject(db, e), eventId, now)]
  {
  }
}
