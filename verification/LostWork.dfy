/**
  A run that does lose work, to show that the condition of `NoLoss.NoWorkLost` cannot be
  dropped. Two payments of one account wait in one partition. The handler and then the
  dead-letter store are out of reach for the first message; the loop goes on, and the
  commit of the second message covers both.
 */
module LostWork {
  import opened Domain
  import opened Tables
  import opened Messages
  import opened Payments
  import opened Handlers
  import opened Pipeline
  import opened NoLoss
  import opened Coverage

  const SETTINGS := Config(3, 1, 1, 1)

  function Tx(id: Id): Transaction {
    Transaction(id, Payment, "a", Some("m"), None, None, 1, "EUR", Pending, None, None, "c")
  }

  function Row(tx: Id, event: Id, at: int, status: OutboxStatus, updated: int): OutboxRow {
    CreatedEvent(Tx(tx), event, at).(status := status, updatedAt := updated)
  }

  function Key(tx: Id): KeyRow<PaymentResponse> {
    KeyRow("h", tx, ResponseOf(Tx(tx)))
  }

  const PLACE := Place(CreatedTopic, 0)

  function EmptyWith(transactions: map<Id, Transaction>, keys: map<Id, KeyRow<PaymentResponse>>, outbox: map<Id, OutboxRow>): Db {
    EMPTY_DB.(transactions := transactions, paymentKeys := keys, outbox := outbox)
  }

  /** The database with both payments and the given outbox. */
  function Both(first: OutboxRow, second: OutboxRow): Db {
    EmptyWith(map["t" := Tx("t"), "u" := Tx("u")], map["k" := Key("t"), "l" := Key("u")], map["e" := first, "f" := second])
  }

  function FirstRow(status: OutboxStatus): OutboxRow { Row("t", "e", 0, status, if status == OutboxPending then 0 else 2) }
  function SecondRow(status: OutboxStatus): OutboxRow { Row("u", "f", 1, status, if status == OutboxPending then 1 else 2) }

  function EntryOf(row: OutboxRow, stamp: nat): Entry { Entry(row.id, MessageOf(row), stamp) }

  function Publishing(db: Db, log: seq<Entry>, publisher: Publisher): State {
    State(db, if log == [] then map[] else map[PLACE := log], |log|, map[], map[], map["p" := publisher], map[])
  }

  function Consuming(db: Db, log: seq<Entry>, session: Session): State {
    State(db, map[PLACE := log], |log|, map[], map[PLACE := session], map["p" := PubIdle], map[])
  }

  // ----- reachable states -----

  ghost predicate Reachable(s: State) {
    exists run :: IsRun(SETTINGS, run) && run.states[|run.states| - 1] == s
  }

  lemma StartIsReachable()
    ensures Reachable(INITIAL)
  {
    assert IsRun(SETTINGS, Run([INITIAL], []));
  }

  lemma NextIsReachable(s: State, s': State, step: Step)
    requires Reachable(s) && Next(SETTINGS, s, s', step)
    ensures Reachable(s')
  {
    var run :| IsRun(SETTINGS, run) && run.states[|run.states| - 1] == s;
    var longer := Run(run.states + [s'], run.steps + [step]);
    forall i | 0 <= i < |longer.steps| ensures StepAt(SETTINGS, longer, i) {
      if i < |run.steps| {
        assert StepAt(SETTINGS, run, i);
      }
    }
  }

  // ----- the run -----

  lemma TxFits(id: Id)
    ensures TransactionChecks(Tx(id)) && NewPayment(Tx(id))
  {
  }

  lemma FirstRequested()
    ensures Reachable(INITIAL.(db := EmptyWith(map["t" := Tx("t")], map["k" := Key("t")], map["e" := FirstRow(OutboxPending)])))
  {
    TxFits("t");
    StartIsReachable();
    NextIsReachable(INITIAL, INITIAL.(db := EmptyWith(map["t" := Tx("t")], map["k" := Key("t")], map["e" := FirstRow(OutboxPending)])),
                    RequestStep(PayAction("k", "h", Tx("t"), "e", 0)));
  }

  lemma BothRequested()
    ensures Reachable(INITIAL.(db := Both(FirstRow(OutboxPending), SecondRow(OutboxPending))))
  {
    TxFits("u");
    FirstRequested();
    var s := INITIAL.(db := EmptyWith(map["t" := Tx("t")], map["k" := Key("t")], map["e" := FirstRow(OutboxPending)]));
    NextIsReachable(s, INITIAL.(db := Both(FirstRow(OutboxPending), SecondRow(OutboxPending))),
                    RequestStep(PayAction("l", "h", Tx("u"), "f", 1)));
  }

  lemma FirstClaimed()
    ensures Reachable(Publishing(Both(FirstRow(OutboxProcessing), SecondRow(OutboxPending)), [], PubClaimed("e")))
  {
    BothRequested();
    NextIsReachable(INITIAL.(db := Both(FirstRow(OutboxPending), SecondRow(OutboxPending))),
                    Publishing(Both(FirstRow(OutboxProcessing), SecondRow(OutboxPending)), [], PubClaimed("e")),
                    PublisherStep("p", ClaimAction("e", 2, {})));
  }

  lemma FirstAccepted(db: Db, entry: Entry)
    requires db == Both(FirstRow(OutboxProcessing), SecondRow(OutboxPending)) && entry == EntryOf(FirstRow(OutboxProcessing), 0)
    ensures Reachable(Publishing(db, [entry], PubAccepted("e")))
  {
    FirstClaimed();
    assert Log(Publishing(db, [], PubClaimed("e")), PLACE) + [entry] == [entry];
    NextIsReachable(Publishing(db, [], PubClaimed("e")), Publishing(db, [entry], PubAccepted("e")), PublisherStep("p", AcceptAction(0, true)));
  }

  lemma FirstMarked(entry: Entry)
    requires entry == EntryOf(FirstRow(OutboxProcessing), 0)
    ensures Reachable(Publishing(Both(FirstRow(OutboxPublished), SecondRow(OutboxPending)), [entry], PubIdle))
  {
    var db := Both(FirstRow(OutboxProcessing), SecondRow(OutboxPending));
    FirstAccepted(db, entry);
    NextIsReachable(Publishing(db, [entry], PubAccepted("e")),
                    Publishing(Both(FirstRow(OutboxPublished), SecondRow(OutboxPending)), [entry], PubIdle),
                    PublisherStep("p", MarkPublishedAction(2)));
  }

  lemma SecondClaimed(entry: Entry)
    requires entry == EntryOf(FirstRow(OutboxProcessing), 0)
    ensures Reachable(Publishing(Both(FirstRow(OutboxPublished), SecondRow(OutboxProcessing)), [entry], PubClaimed("f")))
  {
    FirstMarked(entry);
    NextIsReachable(Publishing(Both(FirstRow(OutboxPublished), SecondRow(OutboxPending)), [entry], PubIdle),
                    Publishing(Both(FirstRow(OutboxPublished), SecondRow(OutboxProcessing)), [entry], PubClaimed("f")),
                    PublisherStep("p", ClaimAction("f", 2, {})));
  }

  lemma SecondAccepted(db: Db, a: Entry, b: Entry)
    requires db == Both(FirstRow(OutboxPublished), SecondRow(OutboxProcessing))
    requires a == EntryOf(FirstRow(OutboxProcessing), 0) && b == EntryOf(SecondRow(OutboxProcessing), 1)
    ensures Reachable(Publishing(db, [a, b], PubAccepted("f")))
  {
    SecondClaimed(a);
    assert [a] + [b] == [a, b];
    NextIsReachable(Publishing(db, [a], PubClaimed("f")), Publishing(db, [a, b], PubAccepted("f")), PublisherStep("p", AcceptAction(0, true)));
  }

  lemma BothPublished(a: Entry, b: Entry)
    requires a == EntryOf(FirstRow(OutboxProcessing), 0) && b == EntryOf(SecondRow(OutboxProcessing), 1)
    ensures Reachable(Publishing(Both(FirstRow(OutboxPublished), SecondRow(OutboxPublished)), [a, b], PubIdle))
  {
    var db := Both(FirstRow(OutboxPublished), SecondRow(OutboxProcessing));
    SecondAccepted(db, a, b);
    NextIsReachable(Publishing(db, [a, b], PubAccepted("f")),
                    Publishing(Both(FirstRow(OutboxPublished), SecondRow(OutboxPublished)), [a, b], PubIdle),
                    PublisherStep("p", MarkPublishedAction(2)));
  }

  lemma FirstFetched(db: Db, log: seq<Entry>)
    requires |log| == 2 && Reachable(Publishing(db, log, PubIdle))
    ensures Reachable(Consuming(db, log, Session(1, Handling(0), false)))
  {
    NextIsReachable(Publishing(db, log, PubIdle), Consuming(db, log, Session(1, Handling(0), false)), SessionStep(PLACE, FetchAction));
  }

  /** The first message fails for good and is passed over; the second is being handled. */
  lemma FirstPassedOver(db: Db, log: seq<Entry>)
    requires |log| == 2 && Reachable(Publishing(db, log, PubIdle))
    ensures Reachable(Consuming(db, log, Session(2, Handling(1), true)))
  {
    FirstFetched(db, log);
    var s1 := Consuming(db, log, Session(1, Handling(0), false));
    var s2 := Consuming(db, log, Session(1, Failing(0), false));
    NextIsReachable(s1, s2, SessionStep(PLACE, GiveUpAction));
    var s3 := Consuming(db, log, Session(1, Idle, true));
    NextIsReachable(s2, s3, SessionStep(PLACE, MoveFailsAction));
    NextIsReachable(s3, Consuming(db, log, Session(2, Handling(1), true)), SessionStep(PLACE, FetchAction));
  }

  lemma SecondResolved(db: Db, db': Db, log: seq<Entry>)
    requires |log| == 2 && Reachable(Consuming(db, log, Session(2, Handling(1), true)))
    requires Handle(db, CreatedTopic, 0, 1, log[1].message, "g", 3) == Ok((db', true))
    ensures Reachable(Consuming(db', log, Session(2, Resolved(1), true)))
  {
    NextIsReachable(Consuming(db, log, Session(2, Handling(1), true)), Consuming(db', log, Session(2, Resolved(1), true)),
                    SessionStep(PLACE, HandleAction("g", 3, true)));
  }

  /** The second message is handled and its offset committed. */
  lemma SecondCommitted(db: Db, db': Db, log: seq<Entry>)
    requires |log| == 2 && Reachable(Consuming(db, log, Session(2, Handling(1), true)))
    requires Handle(db, CreatedTopic, 0, 1, log[1].message, "g", 3) == Ok((db', true))
    ensures Reachable(Consuming(db', log, Session(2, Idle, true)).(commits := map[PLACE := 2]))
  {
    SecondResolved(db, db', log);
    var s1 := Consuming(db', log, Session(2, Resolved(1), true));
    var s2 := Consuming(db', log, Session(2, Idle, true)).(commits := map[PLACE := 2]);
    NextIsReachable(s1, s2, SessionStep(PLACE, CommitAction));
  }

  lemma SecondHandled(db: Db, m: Message) returns (db': Db)
    requires db == Both(FirstRow(OutboxPublished), SecondRow(OutboxPublished)) && m == MessageOf(SecondRow(OutboxProcessing))
    ensures Handle(db, CreatedTopic, 0, 1, m, "g", 3) == Ok((db', true))
    ensures db'.transactions == db.transactions && db'.deadLetters == map[]
    ensures db'.outbox == db.outbox["g" := RiskRow(Tx("u"), "g", 3)]
  {
    PublishedIdentity(SecondRow(OutboxProcessing));
    db' := Handle(db, CreatedTopic, 0, 1, m, "g", 3).value.0;
  }

  lemma NothingCarries(s: State, a: Entry, b: Entry)
    requires s.db.outbox == map["e" := FirstRow(OutboxPublished), "f" := SecondRow(OutboxPublished), "g" := RiskRow(Tx("u"), "g", 3)]
    requires s.db.deadLetters == map[] && s.logs == map[PLACE := [a, b]] && s.commits == map[PLACE := 2]
    ensures !HasCarrier(s, "t")
  {
  }

  /** A reachable state with an unsettled message below a commit point holds a pending payment that no event carries any more. */
  lemma WorkIsLost() returns (s: State)
    ensures Reachable(s) && !Covered(s) && "t" in s.db.transactions && s.db.transactions["t"].status == Pending && !HasCarrier(s, "t")
  {
    var db := Both(FirstRow(OutboxPublished), SecondRow(OutboxPublished));
    var a, b := EntryOf(FirstRow(OutboxProcessing), 0), EntryOf(SecondRow(OutboxProcessing), 1);
    BothPublished(a, b);
    FirstPassedOver(db, [a, b]);
    var db' := SecondHandled(db, b.message);
    SecondCommitted(db, db', [a, b]);
    s := Consuming(db', [a, b], Session(2, Idle, true)).(commits := map[PLACE := 2]);
    NothingCarries(s, a, b);
    assert IsUnsettled(s, PLACE, 0);
  }
}
