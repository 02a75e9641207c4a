/** A payment one of whose events can move has a future that decides it. */
module FuturesDecide {
  import opened Domain
  import opened Tables
  import opened Messages
  import opened Handlers
  import opened DeadLetters
  import opened Invariants
  import opened MoneyLemmas
  import opened Pipeline
  import opened PipelineInvariant
  import opened PipelineTheorems
  import opened Preservation
  import opened Runs
  import opened NoLoss
  import opened Coverage
  import opened Outcomes
  import opened Futures
  import opened FuturesStuck

  // ----- values that steps may choose -----

  lemma {:induction false} LongerThan(ids: set<Id>) returns (n: nat)
    ensures forall x :: x in ids ==> |x| < n
  {
    if ids == {} {
      n := 0;
    } else {
      var x :| x in ids;
      var m := LongerThan(ids - {x});
      n := if |x| < m then m else |x| + 1;
    }
  }

  lemma FreshId(ids: set<Id>) returns (x: Id)
    ensures x !in ids && x != ""
  {
    var n := LongerThan(ids);
    x := seq(n + 1, _ => 'x');
  }

  lemma {:induction false} LaterThan(times: set<int>) returns (n: int)
    ensures forall x :: x in times ==> x < n
    decreases |times|
  {
    if x :| x in times {
      var m := LaterThan(times - {x});
      n := if x < m then m else x + 1;
      forall y | y in times ensures y < n {
        assert y == x || y in times - {x};
      }
    } else {
      n := 0;
    }
  }

  // ----- from a log to the handler -----

  lemma GiveUpStep(c: Config, s: State, p: Place, n: nat, gap: bool)
    ensures Next(c, SetSession(s, p, Session(n + 1, Handling(n), gap)), SetSession(s, p, Session(n + 1, Failing(n), gap)),
                 SessionStep(p, GiveUpAction))
  {
    var before := SetSession(s, p, Session(n + 1, Handling(n), gap));
    assert SetPhase(before, p, Failing(n)) == SetSession(s, p, Session(n + 1, Failing(n), gap));
  }

  lemma MoveFailsStep(c: Config, s: State, p: Place, n: nat, gap: bool)
    ensures Next(c, SetSession(s, p, Session(n + 1, Failing(n), gap)), SetSession(s, p, Session(n + 1, Idle, true)),
                 SessionStep(p, MoveFailsAction))
  {
    var before := SetSession(s, p, Session(n + 1, Failing(n), gap));
    assert SetSession(before, p, Session(n + 1, Idle, true)) == SetSession(s, p, Session(n + 1, Idle, true));
  }

  lemma SkipsOne(c: Config, now: int, s: State, p: Place)
    requires ConsumerOf(p.topic).Some? && SessionAt(s, p).phase.Idle? && SessionAt(s, p).next < |Log(s, p)|
    ensures Leads(c, now, s, SetSession(s, p, Session(SessionAt(s, p).next + 1, Idle, true)))
  {
    var n, gap := SessionAt(s, p).next, SessionAt(s, p).gap;
    var fetched := SetSession(s, p, Session(n + 1, Handling(n), gap));
    OneStep(c, now, s, fetched, SessionStep(p, FetchAction));
    GiveUpStep(c, s, p, n, gap);
    var failing := SetSession(s, p, Session(n + 1, Failing(n), gap));
    LeadsOn(c, now, s, fetched, failing, SessionStep(p, GiveUpAction));
    MoveFailsStep(c, s, p, n, gap);
    LeadsOn(c, now, s, failing, SetSession(s, p, Session(n + 1, Idle, true)), SessionStep(p, MoveFailsAction));
  }

  /** A session that stands at or before an offset can come to handle it, and nothing else changes. */
  lemma {:induction false} ComesToHandle(c: Config, now: int, s: State, p: Place, o: nat) returns (gap: bool)
    requires ConsumerOf(p.topic).Some? && SessionAt(s, p).phase.Idle? && SessionAt(s, p).next <= o < |Log(s, p)|
    ensures Leads(c, now, s, SetSession(s, p, Session(o + 1, Handling(o), gap)))
    decreases o - SessionAt(s, p).next
  {
    if SessionAt(s, p).next == o {
      gap := SessionAt(s, p).gap;
      OneStep(c, now, s, SetSession(s, p, Session(o + 1, Handling(o), gap)), SessionStep(p, FetchAction));
    } else {
      SkipsOne(c, now, s, p);
      var passed := SetSession(s, p, Session(SessionAt(s, p).next + 1, Idle, true));
      gap := ComesToHandle(c, now, passed, p, o);
      assert SetSession(passed, p, Session(o + 1, Handling(o), gap)) == SetSession(s, p, Session(o + 1, Handling(o), gap));
      LeadsThrough(c, now, s, passed, SetSession(s, p, Session(o + 1, Handling(o), gap)));
    }
  }

  lemma Fetched(c: Config, now: int, s: State, p: Place, o: nat) returns (gap: bool)
    requires ConsumerOf(p.topic).Some? && CommitOf(s, p) <= o < |Log(s, p)|
    ensures Leads(c, now, s, SetSession(s, p, Session(o + 1, Handling(o), gap)))
  {
    var restarted := SetSession(s, p, Session(CommitOf(s, p), Idle, false));
    OneStep(c, now, s, restarted, SessionStep(p, RestartAction));
    gap := ComesToHandle(c, now, restarted, p, o);
    assert SetSession(restarted, p, Session(o + 1, Handling(o), gap)) == SetSession(s, p, Session(o + 1, Handling(o), gap));
    LeadsThrough(c, now, s, restarted, SetSession(s, p, Session(o + 1, Handling(o), gap)));
  }

  /** An uncommitted log entry can be handled, whatever stands before it. */
  lemma CanHandle(c: Config, now: int, s: State, p: Place, o: nat, eventId: Id) returns (s': State)
    requires ConsumerOf(p.topic).Some? && CommitOf(s, p) <= o < |Log(s, p)| && eventId != ""
    ensures Leads(c, now, s, s') && s' == s.(db := s'.db, sessions := s'.sessions)
    ensures s'.db == After(s.db, Delivered(s, p, o, eventId, now))
  {
    var gap := Fetched(c, now, s, p, o);
    var ready := SetSession(s, p, Session(o + 1, Handling(o), gap));
    assert Delivered(ready, p, o, eventId, now) == Delivered(s, p, o, eventId, now);
    var r := Delivered(s, p, o, eventId, now);
    s' := SetPhase(ready.(db := After(s.db, r)), p, if r.Ok? then Resolved(o) else Handling(o));
    LeadsOn(c, now, s, ready, s', SessionStep(p, HandleAction(eventId, now, true)));
  }

  // ----- what the handlers then do -----

  /** The ledger decides a pending payment on its risk event. */
  lemma RiskDecides(db: Db, r: Id, partition: nat, offset: nat, eventId: Id, now: int)
    requires r in db.outbox && r != "" && db.outbox[r].id == r && RowOk(db.transactions, db.outbox[r])
    requires db.outbox[r].eventType == RiskEvaluatedEvent && db.outbox[r].aggregate != "" && TxOk(Subject(db, r))
    requires Subject(db, r).status == Pending && (LedgerService, r) !in db.processed && eventId !in db.outbox
    requires LedgerOk(db.transactions, db.ledger)
    ensures var after := After(db, HandleRow(db, r, partition, offset, eventId, now));
            db.outbox[r].aggregate in after.transactions && after.transactions[db.outbox[r].aggregate].status != Pending
  {
    var tx := Subject(db, r);
    PublishedIdentity(db.outbox[r]);
    assert ValidateRiskEvent(db.outbox[r].payload) == Ok(RiskEventFor(tx));
    PendingPosts(db, tx);
  }

  lemma PendingPosts(db: Db, tx: Transaction)
    requires LedgerOk(db.transactions, db.ledger) && tx.id in db.transactions && db.transactions[tx.id] == tx
    requires tx.kind == Payment && tx.status == Pending
    ensures LockPendingTransaction(db, RiskEventFor(tx)) == Ok(tx)
    ensures forall outcome :: EntriesAreNew(db.ledger, Posting(tx, outcome))
  {
    EntriesFit(db.transactions, db.ledger, tx, PaymentEntries(tx));
  }

  /** The risk service writes a risk event for a created event that it does not know. */
  lemma CreatedEvaluates(db: Db, e: Id, partition: nat, offset: nat, eventId: Id, now: int)
    requires e in db.outbox && e != "" && db.outbox[e].id == e && RowOk(db.transactions, db.outbox[e])
    requires db.outbox[e].eventType == TransactionCreated && db.outbox[e].aggregate != "" && TxOk(Subject(db, e))
    requires (RiskService, e) !in db.processed && eventId !in db.outbox
    ensures var after := After(db, HandleRow(db, e, partition, offset, eventId, now));
            after.outbox == db.outbox[eventId := RiskRow(Subject(db, e), eventId, now)] && after.transactions == db.transactions
  {
    PublishedIdentity(db.outbox[e]);
  }

  /** What is known of an event of a pending payment. */
  lemma PendingEvent(c: Config, s: State, e: Id, t: Id)
    requires Sane(c, s) && PendingAt(s, t) && EventIn(s.db.outbox, e, t)
    ensures e != "" && t != "" && s.db.outbox[e].id == e && s.db.outbox[e].aggregate == t && RowOk(s.db.transactions, s.db.outbox[e])
    ensures Subject(s.db, e) == s.db.transactions[t] && TxOk(s.db.transactions[t])
    ensures EventProcessed(s.db, e) ==> CreatedOf(s.db.outbox[e], t) && (RiskService, e) in s.db.processed
    ensures !EventProcessed(s.db, e) ==> (RiskService, e) !in s.db.processed && (LedgerService, e) !in s.db.processed
  {
    assert s.db.outbox[e].id == e && TxOk(s.db.transactions[t]);
    ProcessedEvent(s.db, e, t);
  }

  lemma ProcessedEvent(db: Db, e: Id, t: Id)
    requires TransactionsOk(db.transactions) && RowsOk(db.transactions, db.outbox) && InboxOk(db.transactions, db.outbox, db.processed)
    requires t in db.transactions && db.transactions[t].status == Pending && EventIn(db.outbox, e, t)
    ensures EventProcessed(db, e) ==> CreatedOf(db.outbox[e], t) && (RiskService, e) in db.processed
    ensures !EventProcessed(db, e) ==> (RiskService, e) !in db.processed && (LedgerService, e) !in db.processed
  {
    if k :| k in db.processed && k.1 == e {
      KnownRow(db, k);
    }
  }

  ghost predicate InLog(s: State, p: Place, o: nat, e: Id) {
    CommitOf(s, p) <= o < |Log(s, p)| && Log(s, p)[o].origin == e
  }

  /** An event of the payment as the handlers see it. */
  ghost predicate Ready(s: State, e: Id, t: Id) {
    && e in s.db.outbox && e != "" && t != "" && s.db.outbox[e].id == e && s.db.outbox[e].aggregate == t
    && RowOk(s.db.transactions, s.db.outbox[e]) && PendingAt(s, t) && TxOk(s.db.transactions[t]) && !EventProcessed(s.db, e)
    && LedgerOk(s.db.transactions, s.db.ledger)
  }

  lemma RiskInLogDecides(c: Config, now: int, s: State, r: Id, t: Id, p: Place, o: nat)
    requires Ready(s, r, t) && RiskOf(s.db.outbox[r], t) && InLog(s, p, o, r) && EntryOk(s, p, o)
    ensures CanDecide(c, s, t, now)
  {
    var eventId := FreshId(s.db.outbox.Keys);
    var s' := CanHandle(c, now, s, p, o, eventId);
    assert Delivered(s, p, o, eventId, now) == HandleRow(s.db, r, p.partition, o, eventId, now);
    RiskDecides(s.db, r, p.partition, o, eventId, now);
    assert DecidedAt(s', t);
  }

  lemma CreatedInLogEvaluates(c: Config, now: int, s: State, e: Id, t: Id, p: Place, o: nat) returns (s': State, r: Id)
    requires Ready(s, e, t) && CreatedOf(s.db.outbox[e], t) && InLog(s, p, o, e) && EntryOk(s, p, o)
    ensures Leads(c, now, s, s') && PendingAt(s', t)
    ensures r in s'.db.outbox && RiskOf(s'.db.outbox[r], t) && Unpublished(s', r)
  {
    r := FreshId(s.db.outbox.Keys);
    s' := CanHandle(c, now, s, p, o, r);
    assert Delivered(s, p, o, r, now) == HandleRow(s.db, e, p.partition, o, r, now);
    CreatedEvaluates(s.db, e, p.partition, o, r, now);
  }

  lemma IsReady(c: Config, s: State, e: Id, t: Id)
    requires Sane(c, s) && PendingAt(s, t) && EventIn(s.db.outbox, e, t) && !EventProcessed(s.db, e)
    ensures Ready(s, e, t)
  {
    PendingEvent(c, s, e, t);
  }

  // ----- from the outbox to a log -----

  /** The rest of the database is as it was, and so are the logs up to a new entry. */
  predicate OnlyQueued(s: State, s': State) {
    && s'.db == s.db.(outbox := s'.db.outbox, actions := s'.db.actions)
    && s'.logs == s.logs && s'.commits == s.commits && s'.sessions == s.sessions && s'.operators == s.operators
  }

  /** One row has changed, in its lease columns only. */
  predicate Leased(outbox: map<Id, OutboxRow>, outbox': map<Id, OutboxRow>, e: Id) {
    e in outbox && e in outbox' && outbox' == outbox[e := outbox'[e]] && SameEvent(outbox[e], outbox'[e])
  }

  /** A row that is not published can be claimed. */
  lemma CanClaim(c: Config, now: int, s: State, e: Id) returns (s': State)
    requires e in s.db.outbox && s.db.outbox[e].status != OutboxPublished && s.db.outbox[e].status != OutboxDeadLettered
    ensures Leads(c, now, s, s') && OnlyQueued(s, s') && PublisherAt(s', "p") == PubClaimed(e)
    ensures Leased(s.db.outbox, s'.db.outbox, e)
  {
    var idle := SetPublisher(s, "p", PubIdle);
    OneStep(c, now, s, idle, PublisherStep("p", PublisherStopAction));
    var at := s.db.outbox[e].updatedAt + Outbox.LEASE + 1;
    var locked := s.db.outbox.Keys - {e};
    assert Outbox.IsNext(s.db.outbox, at, locked, e);
    s' := SetPublisher(idle.(db := s.db.(outbox := Outbox.Claimed(s.db.outbox, e, at))), "p", PubClaimed(e));
    LeadsOn(c, now, s, idle, s', PublisherStep("p", ClaimAction(e, at, locked)));
  }

  lemma CanRequeue(c: Config, now: int, s: State, e: Id) returns (s': State)
    requires e in s.db.outbox && s.db.outbox[e].status != OutboxPublished
    ensures Leads(c, now, s, s') && OnlyQueued(s, s') && Leased(s.db.outbox, s'.db.outbox, e)
    ensures s'.db.outbox[e].status != OutboxPublished && s'.db.outbox[e].status != OutboxDeadLettered
  {
    if s.db.outbox[e].status == OutboxDeadLettered {
      s' := s.(db := After(s.db, Outbox.Requeue(s.db, e, now)));
      OneStep(c, now, s, s', MaintenanceStep(RequeueAction(e, now)));
    } else {
      s' := s;
      StaysPut(c, now, s);
    }
  }

  /** An unpublished event can reach a log that its consumer has not committed past. */
  lemma CanPublish(c: Config, now: int, s: State, e: Id) returns (s': State, p: Place, o: nat)
    requires e in s.db.outbox && s.db.outbox[e].status != OutboxPublished && forall q :: SessionOk(s, q)
    ensures Leads(c, now, s, s') && InLog(s', p, o, e)
    ensures s'.db == s.db.(outbox := s'.db.outbox, actions := s'.db.actions)
    ensures Leased(s.db.outbox, s'.db.outbox, e)
  {
    var queued := CanRequeue(c, now, s, e);
    var claimed := CanClaim(c, now, queued, e);
    LeadsThrough(c, now, s, queued, claimed);
    p := Place(TopicFor(claimed.db.outbox[e].eventType), 0);
    o := |Log(s, p)|;
    assert SessionOk(s, p);
    s' := SetPublisher(Append(claimed, p, e, MessageOf(claimed.db.outbox[e])), "p", PubAccepted(e));
    LeadsOn(c, now, s, claimed, s', PublisherStep("p", AcceptAction(0, true)));
  }

  // ----- from a dead letter to a log -----

  /** An attempt can be opened when no attempt on the letter is left pending. */
  lemma CanStart(db: Db, source: Source) returns (attempt: Id, at: int)
    requires source in db.deadLetters && db.deadLetters[source].state == Open
    ensures StartReplay(db, source, attempt, at).Ok?
  {
    var times := set a | a in db.attempts :: db.attempts[a].createdAt;
    var late := LaterThan(times);
    at := late + STALE_REPLAY;
    attempt := FreshId(db.attempts.Keys);
    forall a | a in db.attempts ensures db.attempts[a].createdAt < at - STALE_REPLAY {
      assert db.attempts[a].createdAt in times;
    }
  }

  /** A letter that both checks let through can be sent back to its topic. */
  lemma CanReplay(c: Config, now: int, s: State, source: Source, e: Id) returns (s': State, p: Place, o: nat)
    requires OpenLetter(s.db, source, e) && CheckReplay(s.db.deadLetters[source], c.window, now).Ok? && !EventProcessed(s.db, e)
    requires source.offset < |Log(s, PlaceOf(source))| && Log(s, PlaceOf(source))[source.offset].origin == e
    requires forall q :: SessionOk(s, q)
    ensures Leads(c, now, s, s') && InLog(s', p, o, e) && s'.db == s.db.(attempts := s'.db.attempts)
  {
    var started, attempt := CanBegin(c, now, s, source);
    p := Place(source.topic, 0);
    o := |Log(s, p)|;
    assert SessionOk(s, p);
    s' := SetOperator(Resent(started, source, 0), "o", OpSent(source, attempt));
    LeadsOn(c, now, s, started, s', OperatorStep("o", SendAction(0)));
  }

  lemma CanBegin(c: Config, now: int, s: State, source: Source) returns (s': State, attempt: Id)
    requires source in s.db.deadLetters && CheckReplay(s.db.deadLetters[source], c.window, now).Ok?
    requires s.db.deadLetters[source].eventId.Some? ==> !EventProcessed(s.db, s.db.deadLetters[source].eventId.value)
    ensures Leads(c, now, s, s') && OperatorAt(s', "o") == OpStarted(source, attempt)
    ensures s' == s.(db := s.db.(attempts := s'.db.attempts), operators := s'.operators)
  {
    var checked := CanCheck(c, now, s, source);
    var at;
    attempt, at := CanStart(s.db, source);
    s' := SetOperator(checked.(db := After(s.db, StartReplay(s.db, source, attempt, at))), "o", OpStarted(source, attempt));
    LeadsOn(c, now, s, checked, s', OperatorStep("o", StartAction(attempt, at)));
  }

  lemma LookStep(c: Config, s: State, source: Source, now: int)
    requires source in s.db.deadLetters && CheckReplay(s.db.deadLetters[source], c.window, now).Ok?
    ensures Next(c, SetOperator(s, "o", OpIdle), SetOperator(s, "o", OpLooked(source)), OperatorStep("o", LookupAction(source, now)))
  {
    assert SetOperator(SetOperator(s, "o", OpIdle), "o", OpLooked(source)) == SetOperator(s, "o", OpLooked(source));
  }

  lemma CheckStep(c: Config, s: State, source: Source)
    requires source in s.db.deadLetters
    requires s.db.deadLetters[source].eventId.Some? ==> !EventProcessed(s.db, s.db.deadLetters[source].eventId.value)
    ensures Next(c, SetOperator(s, "o", OpLooked(source)), SetOperator(s, "o", OpChecked(source)), OperatorStep("o", CheckAction))
  {
    assert SetOperator(SetOperator(s, "o", OpLooked(source)), "o", OpChecked(source)) == SetOperator(s, "o", OpChecked(source));
  }

  lemma CanCheck(c: Config, now: int, s: State, source: Source) returns (s': State)
    requires source in s.db.deadLetters && CheckReplay(s.db.deadLetters[source], c.window, now).Ok?
    requires s.db.deadLetters[source].eventId.Some? ==> !EventProcessed(s.db, s.db.deadLetters[source].eventId.value)
    ensures Leads(c, now, s, s') && s' == SetOperator(s, "o", OpChecked(source))
  {
    var idle, looked := SetOperator(s, "o", OpIdle), SetOperator(s, "o", OpLooked(source));
    s' := SetOperator(s, "o", OpChecked(source));
    OneStep(c, now, s, idle, OperatorStep("o", OperatorStopAction));
    LookStep(c, s, source, now);
    LeadsOn(c, now, s, idle, looked, OperatorStep("o", LookupAction(source, now)));
    CheckStep(c, s, source);
    LeadsOn(c, now, s, looked, s', OperatorStep("o", CheckAction));
  }

  // ----- forgetting a repeat -----

  /** An inbox row that no OPEN letter guards can be pruned, in time. */
  lemma CanForget(c: Config, now: int, s: State, k: InboxKey) returns (s': State)
    requires c.batch >= 1 && k in s.db.processed && forall source :: !OpenLetter(s.db, source, k.1)
    ensures Leads(c, now, s, s')
    ensures s' == s.(db := s.db.(processed := s.db.processed - {k}, actions := s'.db.actions))
  {
    var times := set source | source in s.db.deadLetters :: s.db.deadLetters[source].firstFailedAt;
    var cutoff := LaterThan(times + {s.db.processed[k].lastSeen});
    forall source | source in s.db.deadLetters ensures !Guards(s.db.deadLetters[source], k.1, cutoff) {
      assert s.db.deadLetters[source].firstFailedAt in times;
      assert !OpenLetter(s.db, source, k.1);
    }
    assert Prunable(s.db, k, cutoff);
    var busy := s.db.processed.Keys - {k};
    assert IsPruneBatch(s.db, cutoff, c.batch, busy, {k});
    s' := s.(db := Prune(s.db, cutoff, {k}));
    OneStep(c, now, s, s', MaintenanceStep(PruneAction(cutoff + c.keep, busy, {k})));
  }

  // ----- putting it together -----

  /** What the continuations need of a state. */
  ghost predicate Placed(s: State) {
    && (forall q :: SessionOk(s, q))
    && (forall source :: source in s.db.deadLetters ==>
          && source.offset < |Log(s, PlaceOf(source))|
          && s.db.deadLetters[source].eventId == Some(Log(s, PlaceOf(source))[source.offset].origin))
  }

  lemma SaneIsPlaced(c: Config, s: State)
    requires Sane(c, s)
    ensures Placed(s)
  {
    forall source | source in s.db.deadLetters {
      LetterOrigin(c, s, source);
    }
  }

  /** The event is in a log, not yet known to its consumer, and its payment still pending. */
  ghost predicate Deliverable(s: State, e: Id, t: Id, p: Place, o: nat) {
    PendingAt(s, t) && EventIn(s.db.outbox, e, t) && !EventProcessed(s.db, e) && InLog(s, p, o, e)
  }

  lemma PublishedDeliverable(c: Config, now: int, s: State, e: Id, t: Id) returns (s': State, p: Place, o: nat)
    requires Placed(s) && PendingAt(s, t) && EventIn(s.db.outbox, e, t) && !EventProcessed(s.db, e) && Unpublished(s, e)
    ensures Leads(c, now, s, s') && Deliverable(s', e, t, p, o) && SameEvent(s.db.outbox[e], s'.db.outbox[e])
  {
    s', p, o := CanPublish(c, now, s, e);
  }

  lemma ReplayedDeliverable(c: Config, now: int, s: State, e: Id, t: Id) returns (s': State, p: Place, o: nat)
    requires Placed(s) && PendingAt(s, t) && EventIn(s.db.outbox, e, t) && MayReplay(c, s.db, e, now)
    ensures Leads(c, now, s, s') && Deliverable(s', e, t, p, o) && s'.db.outbox == s.db.outbox
  {
    var source :| OpenLetter(s.db, source, e) && CheckReplay(s.db.deadLetters[source], c.window, now).Ok?;
    s', p, o := CanReplay(c, now, s, source, e);
  }

  lemma MovesToLog(c: Config, now: int, s: State, e: Id, t: Id) returns (s': State, p: Place, o: nat)
    requires Placed(s) && PendingAt(s, t) && EventIn(s.db.outbox, e, t) && !EventProcessed(s.db, e)
    requires Unpublished(s, e) || Undelivered(s, e) || MayReplay(c, s.db, e, now)
    ensures Leads(c, now, s, s') && Deliverable(s', e, t, p, o) && SameEvent(s.db.outbox[e], s'.db.outbox[e])
  {
    if Unpublished(s, e) {
      s', p, o := PublishedDeliverable(c, now, s, e, t);
    } else if MayReplay(c, s.db, e, now) {
      s', p, o := ReplayedDeliverable(c, now, s, e, t);
    } else {
      s' := s;
      StaysPut(c, now, s);
      p, o := InSomeLog(s, e);
    }
  }

  lemma InSomeLog(s: State, e: Id) returns (p: Place, o: nat)
    requires Undelivered(s, e)
    ensures InLog(s, p, o, e)
  {
    var q, n :| CommitOf(s, q) <= n < |Log(s, q)| && Log(s, q)[n].origin == e;
    p, o := q, n;
  }

  lemma DecidesLater(c: Config, now: int, s: State, s': State, t: Id)
    requires Leads(c, now, s, s') && CanDecide(c, s', t, now)
    ensures CanDecide(c, s, t, now)
  {
    var last :| Leads(c, now, s', last) && DecidedAt(last, t);
    LeadsThrough(c, now, s, s', last);
  }

  lemma EntryAt(c: Config, s: State, p: Place, o: nat)
    requires Sane(c, s) && o < |Log(s, p)|
    ensures EntryOk(s, p, o)
  {
  }

  lemma RiskMoves(c: Config, now: int, s: State, r: Id, t: Id)
    requires c.maxAttempts >= 1 && Sane(c, s) && PendingAt(s, t) && r in s.db.outbox && RiskOf(s.db.outbox[r], t)
    requires Unpublished(s, r) || Undelivered(s, r) || MayReplay(c, s.db, r, now)
    ensures CanDecide(c, s, t, now)
  {
    PendingEvent(c, s, r, t);
    SaneIsPlaced(c, s);
    var s', p, o := MovesToLog(c, now, s, r, t);
    LeadsSane(c, now, s, s');
    IsReady(c, s', r, t);
    EntryAt(c, s', p, o);
    RiskInLogDecides(c, now, s', r, t, p, o);
    DecidesLater(c, now, s, s', t);
  }

  lemma CreatedMoves(c: Config, now: int, s: State, e: Id, t: Id)
    requires c.maxAttempts >= 1 && Sane(c, s) && PendingAt(s, t) && e in s.db.outbox && CreatedOf(s.db.outbox[e], t)
    requires !EventProcessed(s.db, e) && (Unpublished(s, e) || Undelivered(s, e) || MayReplay(c, s.db, e, now))
    ensures CanDecide(c, s, t, now)
  {
    SaneIsPlaced(c, s);
    var s1, p, o := MovesToLog(c, now, s, e, t);
    LeadsSane(c, now, s, s1);
    IsReady(c, s1, e, t);
    EntryAt(c, s1, p, o);
    var s2, r := CreatedInLogEvaluates(c, now, s1, e, t, p, o);
    LeadsSane(c, now, s1, s2);
    RiskMoves(c, now, s2, r, t);
    DecidesLater(c, now, s1, s2, t);
    DecidesLater(c, now, s, s1, t);
  }

  lemma Forgotten(c: Config, now: int, s: State, e: Id, t: Id) returns (s': State)
    requires c.maxAttempts >= 1 && c.batch >= 1 && Sane(c, s) && PendingAt(s, t) && EventIn(s.db.outbox, e, t)
    requires EventProcessed(s.db, e) && !Barred(s.db, e)
    ensures Leads(c, now, s, s') && Sane(c, s') && PendingAt(s', t) && !EventProcessed(s'.db, e)
    ensures s'.db.outbox == s.db.outbox && s'.logs == s.logs && s'.commits == s.commits
    ensures CreatedOf(s.db.outbox[e], t)
  {
    PendingEvent(c, s, e, t);
    OnlyInboxRow(c, s, e);
    s' := CanForget(c, now, s, (RiskService, e));
    LeadsSane(c, now, s, s');
  }

  lemma OnlyInboxRow(c: Config, s: State, e: Id)
    requires Inv(c, s) && (RiskService, e) in s.db.processed
    ensures forall k :: k in s.db.processed && k.1 == e ==> k == (RiskService, e)
  {
    KnownRow(s.db, (RiskService, e));
    forall k | k in s.db.processed && k.1 == e ensures k == (RiskService, e) {
      KnownRow(s.db, k);
    }
  }

  lemma StillMoves(s: State, s': State, e: Id)
    requires s'.db.outbox == s.db.outbox && s'.logs == s.logs && s'.commits == s.commits
    requires Unpublished(s, e) || Undelivered(s, e)
    ensures Unpublished(s', e) || Undelivered(s', e)
  {
    if Undelivered(s, e) {
      var p, o := InSomeLog(s, e);
      assert Log(s', p) == Log(s, p) && CommitOf(s', p) == CommitOf(s, p);
    }
  }

  lemma KnownCreatedMoves(c: Config, now: int, s: State, e: Id, t: Id)
    requires c.maxAttempts >= 1 && c.batch >= 1 && Sane(c, s) && PendingAt(s, t) && EventIn(s.db.outbox, e, t)
    requires EventProcessed(s.db, e) && !Barred(s.db, e) && (Unpublished(s, e) || Undelivered(s, e))
    ensures CanDecide(c, s, t, now)
  {
    var s' := Forgotten(c, now, s, e, t);
    StillMoves(s, s', e);
    CreatedMoves(c, now, s', e, t);
    DecidesLater(c, now, s, s', t);
  }

  lemma MovableDecides(c: Config, now: int, s: State, e: Id, t: Id)
    requires c.maxAttempts >= 1 && c.batch >= 1 && Sane(c, s) && PendingAt(s, t)
    requires EventOf(s, e, t) && Movable(c, s, e, now)
    ensures CanDecide(c, s, t, now)
  {
    if RiskOf(s.db.outbox[e], t) {
      RiskMoves(c, now, s, e, t);
    } else if EventProcessed(s.db, e) {
      KnownCreatedMoves(c, now, s, e, t);
    } else {
      CreatedMoves(c, now, s, e, t);
    }
  }

  lemma RunSane(c: Config, run: Run, i: nat)
    requires ValidConfig(c) && IsRun(c, run) && i < |run.states|
    ensures Sane(c, run.states[i])
  {
    RunInv(c, run, i);
    RunNames(c, run, i);
  }

  /**
    In every reachable state in which no publisher and no operator is in the middle of its
    work, and at every time: some future decides a pending payment if and only if one of its
    events can move, that is, is unpublished, undelivered or in a dead letter that both replay
    checks let through, and is not barred.
   */
  lemma DecidableIffMovable(c: Config, run: Run, i: nat, t: Id, now: int)
    requires ValidConfig(c) && IsRun(c, run) && i < |run.states| && Quiet(run.states[i]) && PendingAt(run.states[i], t)
    ensures CanDecide(c, run.states[i], t, now) <==> CanMove(c, run.states[i], t, now)
  {
    RunSane(c, run, i);
    var s := run.states[i];
    if CanMove(c, s, t, now) {
      var e :| EventOf(s, e, t) && Movable(c, s, e, now);
      MovableDecides(c, now, s, e, t);
    }
    if CanDecide(c, s, t, now) && !CanMove(c, s, t, now) {
      var s' :| Leads(c, now, s, s') && DecidedAt(s', t);
      StuckForever(c, s, s', t, now);
    }
  }

  /** The replay of this dead letter is refused, as too old or as already processed. */
  predicate Refused(c: Config, db: Db, source: Source, now: int)
    requires source in db.deadLetters
  {
    || CheckReplay(db.deadLetters[source], c.window, now).Err?
    || (db.deadLetters[source].eventId.Some? && EventProcessed(db, db.deadLetters[source].eventId.value))
  }

  ghost predicate AllRefused(c: Config, s: State, t: Id, now: int) {
    forall e, source :: EventOf(s, e, t) && OpenLetter(s.db, source, e) ==> Refused(c, s.db, source, now)
  }

  ghost predicate HasLetter(s: State, t: Id) {
    exists e, source :: EventOf(s, e, t) && OpenLetter(s.db, source, e)
  }

  ghost predicate AllDelivered(s: State, t: Id) {
    forall e :: EventOf(s, e, t) ==> !Unpublished(s, e) && !Undelivered(s, e)
  }

  lemma StuckIsRefused(c: Config, s: State, t: Id, now: int)
    requires !CanMove(c, s, t, now)
    ensures AllRefused(c, s, t, now)
  {
    forall e, source | EventOf(s, e, t) && OpenLetter(s.db, source, e) ensures Refused(c, s.db, source, now) {
      assert !Movable(c, s, e, now);
    }
  }

  lemma RefusedIsStuck(c: Config, s: State, t: Id, now: int)
    requires AllDelivered(s, t) && AllRefused(c, s, t, now)
    ensures !CanMove(c, s, t, now)
  {
  }

  /**
    If nothing was committed over, a pending payment that cannot move is held by OPEN dead
    letters, and all of them are refused; and a payment all of whose events are published
    and delivered cannot move if and only if all of its OPEN dead letters are refused.
   */
  lemma HeldByRefusedLetters(c: Config, run: Run, i: nat, t: Id, now: int)
    requires ValidConfig(c) && IsRun(c, run) && i < |run.states| && NoneOver(run, i) && PendingAt(run.states[i], t)
    ensures !CanMove(c, run.states[i], t, now) ==> HasLetter(run.states[i], t) && AllRefused(c, run.states[i], t, now)
    ensures AllDelivered(run.states[i], t) ==> (!CanMove(c, run.states[i], t, now) <==> AllRefused(c, run.states[i], t, now))
  {
    var s := run.states[i];
    if !CanMove(c, s, t, now) {
      RunSane(c, run, i);
      NoWorkLost(c, run, i, t);
      StuckHasLetter(c, s, t, now);
      StuckIsRefused(c, s, t, now);
    } else if AllDelivered(s, t) && AllRefused(c, s, t, now) {
      RefusedIsStuck(c, s, t, now);
    }
  }

  lemma StuckHasLetter(c: Config, s: State, t: Id, now: int)
    requires Sane(c, s) && HasCarrier(s, t) && !CanMove(c, s, t, now)
    ensures HasLetter(s, t)
  {
    var e :| EventOf(s, e, t) && Carried(s, e);
    assert !Movable(c, s, e, now);
    if !Barred(s.db, e) {
      var source :| Keeps(s, source, e);
      KeepsIsOpen(c, s, source, e);
    }
  }

  /** A letter that keeps an event's message names the event. */
  lemma KeepsIsOpen(c: Config, s: State, source: Source, e: Id)
    requires Sane(c, s) && Keeps(s, source, e)
    ensures OpenLetter(s.db, source, e)
  {
    assert DeadOk(s, source) && s.db.outbox[e].id == e;
    PublishedIdentity(s.db.outbox[e]);
  }
}
