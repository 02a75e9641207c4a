/**
  Runs that show what the pipeline does not promise: payments that are held by dead letters
  that no operator may replay any more, one because its letter is too old, one because the
  event of a younger letter is already processed; and a payment that is evaluated twice
  because the inbox row of its created event was pruned.
 */
module Witnesses {
  import opened Domain
  import opened Tables
  import opened Messages
  import opened Handlers
  import opened DeadLetters
  import opened Invariants
  import opened Pipeline
  import opened NoLoss
  import opened Outcomes
  import opened Futures
  import opened FuturesDecide
  import opened LostWork

  /** The database with the first payment and the given state of its created event. */
  function One(status: OutboxStatus): Db {
    EmptyWith(map["t" := Tx("t")], map["k" := Key("t")], map["e" := FirstRow(status)])
  }

  lemma OneClaimed()
    ensures Reachable(Publishing(One(OutboxProcessing), [], PubClaimed("e")))
  {
    FirstRequested();
    NextIsReachable(INITIAL.(db := One(OutboxPending)), Publishing(One(OutboxProcessing), [], PubClaimed("e")),
                    PublisherStep("p", ClaimAction("e", 2, {})));
  }

  lemma OneAccepted(entry: Entry)
    requires entry == EntryOf(FirstRow(OutboxProcessing), 0)
    ensures Reachable(Publishing(One(OutboxProcessing), [entry], PubAccepted("e")))
  {
    OneClaimed();
    var s := Publishing(One(OutboxProcessing), [], PubClaimed("e"));
    assert Log(s, PLACE) + [entry] == [entry];
    NextIsReachable(s, Publishing(One(OutboxProcessing), [entry], PubAccepted("e")), PublisherStep("p", AcceptAction(0, true)));
  }

  lemma OnePublished(entry: Entry)
    requires entry == EntryOf(FirstRow(OutboxProcessing), 0)
    ensures Reachable(Publishing(One(OutboxPublished), [entry], PubIdle))
  {
    OneAccepted(entry);
    NextIsReachable(Publishing(One(OutboxProcessing), [entry], PubAccepted("e")), Publishing(One(OutboxPublished), [entry], PubIdle),
                    PublisherStep("p", MarkPublishedAction(2)));
  }

  lemma OneFetched(db: Db, entry: Entry)
    requires Reachable(Publishing(db, [entry], PubIdle))
    ensures Reachable(Consuming(db, [entry], Session(1, Handling(0), false)))
  {
    NextIsReachable(Publishing(db, [entry], PubIdle), Consuming(db, [entry], Session(1, Handling(0), false)), SessionStep(PLACE, FetchAction));
  }

  // ----- dead-lettering a message -----

  const SOURCE := Source(RiskService, CreatedTopic, 0, 0)

  function Letter(m: Message, source: Source, at: int): DeadLetter {
    RecordFromMessage(source, m, at).(kafkaPublishedAt := Some(at))
  }

  /** A session at offset n has dead-lettered the message and committed. */
  function Parked(s: State, p: Place, n: nat, at: int): State
    requires ConsumerOf(p.topic).Some? && n < |Log(s, p)|
  {
    s.(db := s.db.(deadLetters := s.db.deadLetters[SourceOf(p, n) := Letter(Log(s, p)[n].message, SourceOf(p, n), at)]),
       sessions := s.sessions[p := Session(n + 1, Idle, false)], commits := s.commits[p := n + 1])
  }

  lemma Failed(s: State, p: Place, n: nat)
    requires Reachable(s) && ConsumerOf(p.topic).Some? && SessionAt(s, p) == Session(n, Idle, false) && n < |Log(s, p)|
    ensures Reachable(SetSession(s, p, Session(n + 1, Failing(n), false)))
  {
    var fetched := SetSession(s, p, Session(n + 1, Handling(n), false));
    NextIsReachable(s, fetched, SessionStep(p, FetchAction));
    GiveUpStep(SETTINGS, s, p, n, false);
    NextIsReachable(fetched, SetSession(s, p, Session(n + 1, Failing(n), false)), SessionStep(p, GiveUpAction));
  }

  lemma RecordStep(s: State, p: Place, n: nat, at: int)
    requires ConsumerOf(p.topic).Some? && n < |Log(s, p)| && SourceOf(p, n) !in s.db.deadLetters
    ensures Next(SETTINGS, SetSession(s, p, Session(n + 1, Failing(n), false)),
                 SetSession(s.(db := DeadLettered(s, p, n, at)), p, Session(n + 1, Recorded(n), false)), SessionStep(p, RecordAction(at)))
  {
    var failing := SetSession(s, p, Session(n + 1, Failing(n), false));
    assert DeadLettered(failing, p, n, at) == DeadLettered(s, p, n, at);
    assert SetPhase(failing.(db := DeadLettered(s, p, n, at)), p, Recorded(n))
        == SetSession(s.(db := DeadLettered(s, p, n, at)), p, Session(n + 1, Recorded(n), false));
  }

  lemma MarkedTables(s: State, p: Place, n: nat, at: int)
    requires ConsumerOf(p.topic).Some? && n < |Log(s, p)| && SourceOf(p, n) !in s.db.deadLetters
    ensures var r := MarkDeadLetterPublished(DeadLettered(s, p, n, at), SourceOf(p, n), at);
            r.Ok? && r.value.0 == Parked(s, p, n, at).db
  {
  }

  lemma Rephased(s: State, p: Place, n: nat, from: Phase, to: Phase)
    ensures SetPhase(SetSession(s, p, Session(n + 1, from, false)), p, to) == SetSession(s, p, Session(n + 1, to, false))
  {
  }

  lemma MarkStep(s: State, p: Place, n: nat, at: int)
    requires ConsumerOf(p.topic).Some? && n < |Log(s, p)| && SourceOf(p, n) !in s.db.deadLetters
    ensures Next(SETTINGS, SetSession(s.(db := DeadLettered(s, p, n, at)), p, Session(n + 1, Recorded(n), false)),
                 SetSession(s.(db := Parked(s, p, n, at).db), p, Session(n + 1, Resolved(n), false)), SessionStep(p, PublishDeadAction(at)))
  {
    MarkedTables(s, p, n, at);
    Rephased(s.(db := Parked(s, p, n, at).db), p, n, Recorded(n), Resolved(n));
  }

  lemma CommitStep(s: State, p: Place, n: nat)
    ensures Next(SETTINGS, SetSession(s, p, Session(n + 1, Resolved(n), false)),
                 SetSession(s.(commits := s.commits[p := n + 1]), p, Session(n + 1, Idle, false)), SessionStep(p, CommitAction))
  {
    Rephased(s.(commits := s.commits[p := n + 1]), p, n, Resolved(n), Idle);
  }

  /** Any message that a session comes to can end as a dead letter. */
  lemma ParkedIsReachable(s: State, p: Place, n: nat, at: int)
    requires Reachable(s) && ConsumerOf(p.topic).Some? && SessionAt(s, p) == Session(n, Idle, false) && n < |Log(s, p)|
    requires SourceOf(p, n) !in s.db.deadLetters
    ensures Reachable(Parked(s, p, n, at))
  {
    Failed(s, p, n);
    RecordStep(s, p, n, at);
    var recorded := SetSession(s.(db := DeadLettered(s, p, n, at)), p, Session(n + 1, Recorded(n), false));
    NextIsReachable(SetSession(s, p, Session(n + 1, Failing(n), false)), recorded, SessionStep(p, RecordAction(at)));
    MarkStep(s, p, n, at);
    var marked := s.(db := Parked(s, p, n, at).db);
    var resolved := SetSession(marked, p, Session(n + 1, Resolved(n), false));
    NextIsReachable(recorded, resolved, SessionStep(p, PublishDeadAction(at)));
    CommitStep(marked, p, n);
    NextIsReachable(resolved, Parked(s, p, n, at), SessionStep(p, CommitAction));
  }

  /** From a reachable, quiet state, no future decides a payment that cannot move. */
  lemma NeverDecided(s: State, t: Id, now: int)
    requires Reachable(s) && Quiet(s) && PendingAt(s, t) && !CanMove(SETTINGS, s, t, now)
    ensures !CanDecide(SETTINGS, s, t, now)
  {
    var run :| IsRun(SETTINGS, run) && run.states[|run.states| - 1] == s;
    DecidableIffMovable(SETTINGS, run, |run.states| - 1, t, now);
  }

  // ----- a letter that is too old -----

  lemma OnlyTheLetter(s: State, entry: Entry)
    requires s.db.outbox == map["e" := FirstRow(OutboxPublished)] && s.logs == map[PLACE := [entry]] && s.commits == map[PLACE := 1]
    requires s.db.deadLetters == map[SOURCE := Letter(entry.message, SOURCE, 0)] && entry == EntryOf(FirstRow(OutboxProcessing), 0)
    ensures !CanMove(SETTINGS, s, "t", 10) && HasCarrier(s, "t")
  {
    assert forall p :: |Log(s, p)| <= CommitOf(s, p);
    assert MessageOf(FirstRow(OutboxPublished)) == entry.message;
    assert EventOf(s, "e", "t") && Keeps(s, SOURCE, "e");
  }

  /** A reachable state in which a pending payment is held by an expired dead letter alone, for good. */
  lemma CarrierExpires() returns (s: State)
    ensures Reachable(s) && PendingAt(s, "t") && HasCarrier(s, "t") && !CanDecide(SETTINGS, s, "t", 10)
  {
    var entry := EntryOf(FirstRow(OutboxProcessing), 0);
    OnePublished(entry);
    var published := Publishing(One(OutboxPublished), [entry], PubIdle);
    ParkedIsReachable(published, PLACE, 0, 0);
    s := Parked(published, PLACE, 0, 0);
    OnlyTheLetter(s, entry);
    NeverDecided(s, "t", 10);
  }

  // ----- a second evaluation -----

  const INBOX: InboxKey := (RiskService, "e")

  function Seen(now: int): ProcessedRow {
    ProcessedRow(Sha256(FirstRow(OutboxPublished).payload), CreatedTopic, 0, 0, now)
  }

  lemma CreatedHandled(db: Db, m: Message, eventId: Id, now: int)
    requires m == MessageOf(FirstRow(OutboxProcessing)) && INBOX !in db.processed && eventId !in db.outbox
    ensures Handle(db, CreatedTopic, 0, 0, m, eventId, now) ==
            Ok((db.(processed := db.processed[INBOX := Seen(now)], outbox := db.outbox[eventId := RiskRow(Tx("t"), eventId, now)]), true))
  {
    PublishedIdentity(FirstRow(OutboxProcessing));
  }

  /** A handler commits and its session ends before the offset is committed. */
  lemma HandledThenRestarted(db: Db, db': Db, entry: Entry, eventId: Id, now: int)
    requires Reachable(Consuming(db, [entry], Session(1, Handling(0), false)))
    requires Handle(db, CreatedTopic, 0, 0, entry.message, eventId, now) == Ok((db', true)) && eventId != ""
    ensures Reachable(Consuming(db', [entry], Session(0, Idle, false)))
  {
    var resolved := Consuming(db', [entry], Session(1, Resolved(0), false));
    NextIsReachable(Consuming(db, [entry], Session(1, Handling(0), false)), resolved, SessionStep(PLACE, HandleAction(eventId, now, true)));
    NextIsReachable(resolved, Consuming(db', [entry], Session(0, Idle, false)), SessionStep(PLACE, RestartAction));
  }

  lemma PrunedThenFetched(db: Db, entry: Entry, session: Session)
    requires db.processed == map[INBOX := Seen(3)] && db.deadLetters == map[] && session == Session(0, Idle, false)
    requires Reachable(Consuming(db, [entry], session))
    ensures Reachable(Consuming(Prune(db, 99, {INBOX}), [entry], Session(1, Handling(0), false)))
  {
    var pruned := Consuming(Prune(db, 99, {INBOX}), [entry], session);
    assert IsPruneBatch(db, 99, 1, {}, {INBOX});
    NextIsReachable(Consuming(db, [entry], session), pruned, MaintenanceStep(PruneAction(100, {}, {INBOX})));
    NextIsReachable(pruned, Consuming(Prune(db, 99, {INBOX}), [entry], Session(1, Handling(0), false)), SessionStep(PLACE, FetchAction));
  }

  /** A reachable state with two risk events for one payment. */
  lemma EvaluatedTwice() returns (s: State)
    ensures Reachable(s) && "g" in s.db.outbox && "h" in s.db.outbox
    ensures RiskOf(s.db.outbox["g"], "t") && RiskOf(s.db.outbox["h"], "t")
  {
    var entry := EntryOf(FirstRow(OutboxProcessing), 0);
    var db := One(OutboxPublished);
    OnePublished(entry);
    OneFetched(db, entry);
    CreatedHandled(db, entry.message, "g", 3);
    var db1 := db.(processed := map[INBOX := Seen(3)], outbox := db.outbox["g" := RiskRow(Tx("t"), "g", 3)]);
    HandledThenRestarted(db, db1, entry, "g", 3);
    PrunedThenFetched(db1, entry, Session(0, Idle, false));
    var db2 := Prune(db1, 99, {INBOX});
    CreatedHandled(db2, entry.message, "h", 100);
    var db3 := db2.(processed := db2.processed[INBOX := Seen(100)], outbox := db2.outbox["h" := RiskRow(Tx("t"), "h", 100)]);
    HandledThenRestarted(db2, db3, entry, "h", 100);
    s := Consuming(db3, [entry], Session(0, Idle, false));
  }

  // ----- a letter whose event is already processed -----

  const RISK_PLACE := Place(RiskTopic, 0)
  const RISK_SOURCE := Source(LedgerService, RiskTopic, 0, 0)

  function RiskRowAt(status: OutboxStatus, at: int): OutboxRow {
    RiskRow(Tx("t"), "g", 3).(status := status, updatedAt := at)
  }

  /** The created event is handled and published; the risk event has the given state. */
  function Evaluated(row: OutboxRow): Db {
    One(OutboxPublished).(processed := map[INBOX := Seen(3)], outbox := map["e" := FirstRow(OutboxPublished), "g" := row])
  }

  function WithRisk(row: OutboxRow, entry: Entry, risk: seq<Entry>, publisher: Publisher): State {
    State(Evaluated(row), if risk == [] then map[PLACE := [entry]] else map[PLACE := [entry], RISK_PLACE := risk], 1 + |risk|, map[],
          map[PLACE := Session(0, Idle, false)], map["p" := publisher], map[])
  }

  lemma RiskWritten(entry: Entry)
    requires entry == EntryOf(FirstRow(OutboxProcessing), 0)
    ensures Reachable(WithRisk(RiskRowAt(OutboxPending, 3), entry, [], PubIdle))
  {
    var db := One(OutboxPublished);
    OnePublished(entry);
    OneFetched(db, entry);
    CreatedHandled(db, entry.message, "g", 3);
    HandledThenRestarted(db, Evaluated(RiskRowAt(OutboxPending, 3)), entry, "g", 3);
  }

  lemma RiskClaimed(entry: Entry)
    requires entry == EntryOf(FirstRow(OutboxProcessing), 0)
    ensures Reachable(WithRisk(RiskRowAt(OutboxProcessing, 4), entry, [], PubClaimed("g")))
  {
    RiskWritten(entry);
    NextIsReachable(WithRisk(RiskRowAt(OutboxPending, 3), entry, [], PubIdle),
                    WithRisk(RiskRowAt(OutboxProcessing, 4), entry, [], PubClaimed("g")), PublisherStep("p", ClaimAction("g", 4, {})));
  }

  lemma RiskAccepted(entry: Entry, risk: Entry)
    requires entry == EntryOf(FirstRow(OutboxProcessing), 0) && risk == EntryOf(RiskRowAt(OutboxProcessing, 4), 1)
    ensures Reachable(WithRisk(RiskRowAt(OutboxProcessing, 4), entry, [risk], PubAccepted("g")))
  {
    RiskClaimed(entry);
    var s := WithRisk(RiskRowAt(OutboxProcessing, 4), entry, [], PubClaimed("g"));
    assert Log(s, RISK_PLACE) + [risk] == [risk];
    NextIsReachable(s, WithRisk(RiskRowAt(OutboxProcessing, 4), entry, [risk], PubAccepted("g")), PublisherStep("p", AcceptAction(0, true)));
  }

  lemma RiskPublished(entry: Entry, risk: Entry)
    requires entry == EntryOf(FirstRow(OutboxProcessing), 0) && risk == EntryOf(RiskRowAt(OutboxProcessing, 4), 1)
    ensures Reachable(WithRisk(RiskRowAt(OutboxPublished, 4), entry, [risk], PubIdle))
  {
    RiskAccepted(entry, risk);
    NextIsReachable(WithRisk(RiskRowAt(OutboxProcessing, 4), entry, [risk], PubAccepted("g")),
                    WithRisk(RiskRowAt(OutboxPublished, 4), entry, [risk], PubIdle), PublisherStep("p", MarkPublishedAction(4)));
  }

  lemma CreatedLetter(s: State, m: Message)
    requires s.db.processed == map[INBOX := Seen(3)] && m == EntryOf(FirstRow(OutboxProcessing), 0).message
    requires SOURCE in s.db.deadLetters && s.db.deadLetters[SOURCE] == Letter(m, SOURCE, 20)
    ensures OpenLetter(s.db, SOURCE, "e") && Barred(s.db, "e")
    ensures CheckReplay(s.db.deadLetters[SOURCE], SETTINGS.window, 21).Ok?
  {
    PublishedIdentity(FirstRow(OutboxProcessing));
    assert HeaderValue(m.headers, EVENT_ID) == "e" && |"e"| == 1;
    assert INBOX in s.db.processed && INBOX.1 == "e";
    assert OpenLetter(s.db, SOURCE, "e");
  }

  lemma RiskLetter(s: State, m: Message)
    requires m == EntryOf(RiskRowAt(OutboxProcessing, 4), 1).message && s.db.deadLetters.Keys == {SOURCE, RISK_SOURCE}
    requires s.db.deadLetters[RISK_SOURCE] == Letter(m, RISK_SOURCE, 5) && OpenLetter(s.db, SOURCE, "e")
    ensures !MayReplay(SETTINGS, s.db, "g", 21)
  {
    assert "e" != "g";
  }

  /** The state of the two letters: the risk event's is too old at 21, the created event's is not, but its event is processed. */
  lemma BothLettersRefused(s: State, entry: Entry, risk: Entry)
    requires s.db.outbox == map["e" := FirstRow(OutboxPublished), "g" := RiskRowAt(OutboxPublished, 4)]
    requires s.db.processed == map[INBOX := Seen(3)]
    requires s.logs == map[PLACE := [entry], RISK_PLACE := [risk]] && s.commits == map[RISK_PLACE := 1, PLACE := 1]
    requires s.db.deadLetters == map[RISK_SOURCE := Letter(risk.message, RISK_SOURCE, 5), SOURCE := Letter(entry.message, SOURCE, 20)]
    requires entry == EntryOf(FirstRow(OutboxProcessing), 0) && risk == EntryOf(RiskRowAt(OutboxProcessing, 4), 1)
    ensures !CanMove(SETTINGS, s, "t", 21)
    ensures CheckReplay(s.db.deadLetters[SOURCE], SETTINGS.window, 21).Ok? && OpenLetter(s.db, SOURCE, "e")
  {
    assert forall p :: |Log(s, p)| <= CommitOf(s, p);
    CreatedLetter(s, entry.message);
    RiskLetter(s, risk.message);
    forall e | EventOf(s, e, "t") ensures !Movable(SETTINGS, s, e, 21) {
      assert e == "e" || e == "g";
    }
  }

  /** A reachable state in which a pending payment is held for good although one of its letters is inside the window. */
  lemma CarrierIsProcessed() returns (s: State)
    ensures Reachable(s) && PendingAt(s, "t") && !CanDecide(SETTINGS, s, "t", 21)
    ensures OpenLetter(s.db, SOURCE, "e") && CheckReplay(s.db.deadLetters[SOURCE], SETTINGS.window, 21).Ok?
  {
    var entry, risk := EntryOf(FirstRow(OutboxProcessing), 0), EntryOf(RiskRowAt(OutboxProcessing, 4), 1);
    RiskPublished(entry, risk);
    var published := WithRisk(RiskRowAt(OutboxPublished, 4), entry, [risk], PubIdle);
    ParkedIsReachable(published, RISK_PLACE, 0, 5);
    var parked := Parked(published, RISK_PLACE, 0, 5);
    ParkedIsReachable(parked, PLACE, 0, 20);
    s := Parked(parked, PLACE, 0, 20);
    BothLettersRefused(s, entry, risk);
    NeverDecided(s, "t", 21);
  }

  // ----- a message without an event_id header -----

  const LEGACY := Message("evt_1", TransactionJson(Tx("t")), [])

  /**
    Its identity is its key. Once it has been handled and also stands as an OPEN dead
    letter, as a late handler leaves it, its inbox row can be pruned all the same.
   */
  lemma LegacyRowIsPrunable() returns (db: Db)
    ensures EventId(LEGACY) == Ok("evt_1") && Handle(EMPTY_DB, CreatedTopic, 0, 0, LEGACY, "g", 3).Ok?
    ensures db == Upsert(Handle(EMPTY_DB, CreatedTopic, 0, 0, LEGACY, "g", 3).value.0, RecordFromMessage(SOURCE, LEGACY, 3))
    ensures db.deadLetters[SOURCE].state == Open && Prunable(db, (RiskService, "evt_1"), 99)
  {
    assert "evt_" <= LEGACY.key;
    assert EventId(LEGACY) == Ok("evt_1");
    db := Upsert(Handle(EMPTY_DB, CreatedTopic, 0, 0, LEGACY, "g", 3).value.0, RecordFromMessage(SOURCE, LEGACY, 3));
  }
}
