/** What holds in every state of every run of the pipeline. */
module PipelineInvariant {
  import opened Domain
  import opened Tables
  import opened Messages
  import opened Invariants
  import opened Pipeline

  // ----- the broker side -----

  /** A log entry is the message of the outbox row it came from, on the topic of its type. */
  ghost predicate EntryOk(s: State, p: Place, o: nat)
    requires o < |Log(s, p)|
  {
    var entry := Log(s, p)[o];
    && entry.origin in s.db.outbox
    && entry.message == MessageOf(s.db.outbox[entry.origin])
    && TopicFor(s.db.outbox[entry.origin].eventType) == p.topic
    && entry.stamp < s.stamp
  }

  ghost predicate InLogs(s: State, e: Id) {
    exists p, o :: 0 <= o < |Log(s, p)| && Log(s, p)[o].origin == e
  }

  /** The message at this offset needs no more work from its consumer. */
  ghost predicate Settled(s: State, p: Place, o: nat)
    requires ConsumerOf(p.topic).Some? && o < |Log(s, p)|
  {
    || SourceOf(p, o) in s.db.deadLetters
    || (Log(s, p)[o].origin in s.db.outbox && Effect(s.db.transactions, s.db.outbox, s.db.outbox[Log(s, p)[o].origin]))
  }

  /** A dead letter is a copy of the log entry its source names. */
  ghost predicate DeadOk(s: State, source: Source) {
    && source in s.db.deadLetters
    && ConsumerOf(source.topic) == Some(source.consumer)
    && source.offset < |Log(s, PlaceOf(source))|
    && ReplayMessage(s.db.deadLetters[source]) == Log(s, PlaceOf(source))[source.offset].message
    && s.db.deadLetters[source].eventId == RecordedId(s.db.deadLetters[source].headers)
  }

  /** The same event was appended again, later. */
  ghost predicate LaterCopy(s: State, source: Source) {
    && source.offset < |Log(s, PlaceOf(source))|
    && exists p, o :: 0 <= o < |Log(s, p)|
         && Log(s, p)[o].origin == Log(s, PlaceOf(source))[source.offset].origin
         && Log(s, p)[o].stamp > Log(s, PlaceOf(source))[source.offset].stamp
  }

  ghost predicate PublisherOk(s: State, phase: Publisher) {
    match phase
    case PubIdle => true
    case PubClaimed(e) => e in s.db.outbox
    case PubAccepted(e) => e in s.db.outbox && InLogs(s, e)
    case PubRejected(e) => e in s.db.outbox
  }

  ghost predicate AttemptOf(s: State, attempt: Id, source: Source) {
    attempt in s.db.attempts && s.db.attempts[attempt].deadLetter == source
  }

  ghost predicate OperatorOk(s: State, phase: Operator) {
    match phase
    case OpIdle => true
    case OpLooked(source) => source in s.db.deadLetters
    case OpChecked(source) => source in s.db.deadLetters
    case OpStarted(source, a) => AttemptOf(s, a, source)
    case OpSent(source, a) => AttemptOf(s, a, source) && LaterCopy(s, source)
    case OpUnsent(source, a) => AttemptOf(s, a, source)
  }

  /** Offsets a session has passed: all of them, or all but the one it is working on. */
  function Passed(session: Session): int {
    match session.phase
    case Idle => session.next
    case Resolved(_) => session.next
    case _ => session.next - 1
  }

  ghost predicate SessionOk(s: State, p: Place) {
    var session := SessionAt(s, p);
    && CommitOf(s, p) <= Passed(session) && session.next <= |Log(s, p)|
    && (!session.phase.Idle? ==> session.phase.offset + 1 == session.next && ConsumerOf(p.topic).Some?)
    && (session.phase.Recorded? ==> SourceOf(p, session.phase.offset) in s.db.deadLetters)
  }

  /** A resolved message is settled, and so is all that a session without a gap has passed since the commit point. */
  ghost predicate CoverOk(s: State, p: Place) {
    ConsumerOf(p.topic).Some? ==>
      && (!SessionAt(s, p).gap ==>
            forall o :: CommitOf(s, p) <= o < Passed(SessionAt(s, p)) && o < |Log(s, p)| ==> Settled(s, p, o))
      && (SessionAt(s, p).phase.Resolved? && SessionAt(s, p).phase.offset < |Log(s, p)| ==>
            Settled(s, p, SessionAt(s, p).phase.offset))
  }

  predicate IsPublished(db: Db, e: Id) {
    e in db.outbox && db.outbox[e].status == OutboxPublished
  }

  predicate IsRepublished(db: Db, source: Source) {
    source in db.deadLetters && db.deadLetters[source].state == Republished
  }

  ghost predicate BrokerOk(s: State) {
    && (forall p, o :: 0 <= o < |Log(s, p)| ==> EntryOk(s, p, o))
    && (forall source :: source in s.db.deadLetters ==> DeadOk(s, source))
    && (forall e :: IsPublished(s.db, e) ==> InLogs(s, e))
    && (forall source :: IsRepublished(s.db, source) ==> LaterCopy(s, source))
    && (forall pub :: PublisherOk(s, PublisherAt(s, pub)))
    && (forall op :: OperatorOk(s, OperatorAt(s, op)))
    && (forall p :: SessionOk(s, p))
    && (forall p :: CoverOk(s, p))
  }

  // ----- what a step cannot take back -----

  /** The database only grows as it may, and logs are append only. */
  ghost predicate Persists(s: State, s': State) {
    && Grows(s.db, s'.db)
    && (forall p :: Log(s, p) <= Log(s', p))
    && s.stamp <= s'.stamp
  }

  lemma InLogsPersists(s: State, s': State, e: Id)
    requires Persists(s, s') && InLogs(s, e)
    ensures InLogs(s', e)
  {
  }

  lemma LaterCopyPersists(s: State, s': State, source: Source)
    requires Persists(s, s') && LaterCopy(s, source)
    ensures LaterCopy(s', source)
  {
  }

  lemma AllSettledPersist(s: State, s': State, p: Place)
    requires Persists(s, s') && ConsumerOf(p.topic).Some?
    ensures forall o {:trigger Settled(s', p, o)} :: 0 <= o < |Log(s, p)| && Settled(s, p, o) ==> Settled(s', p, o)
  {
  }

  lemma EntryPersists(s: State, s': State, p: Place, o: nat)
    requires Persists(s, s') && o < |Log(s, p)| && EntryOk(s, p, o)
    ensures EntryOk(s', p, o)
  {
  }

  lemma OperatorPersists(s: State, s': State, phase: Operator)
    requires Persists(s, s') && OperatorOk(s, phase)
    ensures OperatorOk(s', phase)
  {
  }

  lemma CoverPersists(s: State, s': State, p: Place)
    requires Persists(s, s') && SessionOk(s, p) && CoverOk(s, p)
    requires SessionAt(s', p) == SessionAt(s, p) && CommitOf(s', p) == CommitOf(s, p)
    ensures CoverOk(s', p)
  {
    if ConsumerOf(p.topic).Some? {
      AllSettledPersist(s, s', p);
    }
  }

  /** What a step has to show about the things it changes, for the broker invariant to go on. */
  ghost predicate ChangesOk(s: State, s': State) {
    && (forall p, o :: |Log(s, p)| <= o < |Log(s', p)| ==> EntryOk(s', p, o))
    && (forall source :: source in s'.db.deadLetters && source !in s.db.deadLetters ==> DeadOk(s', source))
    && (forall e :: IsPublished(s'.db, e) && !IsPublished(s.db, e) ==> InLogs(s', e))
    && (forall source :: IsRepublished(s'.db, source) && !IsRepublished(s.db, source) ==> LaterCopy(s', source))
    && (forall pub :: PublisherAt(s', pub) == PublisherAt(s, pub) || PublisherOk(s', PublisherAt(s', pub)))
    && (forall op :: OperatorAt(s', op) == OperatorAt(s, op) || OperatorOk(s', OperatorAt(s', op)))
    && (forall p :: (SessionAt(s', p) == SessionAt(s, p) && CommitOf(s', p) == CommitOf(s, p))
                    || (SessionOk(s', p) && CoverOk(s', p)))
  }

  lemma LogsKeep(s: State, s': State)
    requires BrokerOk(s) && Persists(s, s') && ChangesOk(s, s')
    ensures forall p, o :: 0 <= o < |Log(s', p)| ==> EntryOk(s', p, o)
  {
    forall p, o: nat | o < |Log(s', p)| ensures EntryOk(s', p, o) {
      if o < |Log(s, p)| { EntryPersists(s, s', p, o); }
    }
  }

  lemma DeadLettersKeep(s: State, s': State)
    requires BrokerOk(s) && Persists(s, s') && ChangesOk(s, s')
    ensures forall source :: source in s'.db.deadLetters ==> DeadOk(s', source)
    ensures forall source :: IsRepublished(s'.db, source) ==> LaterCopy(s', source)
  {
  }

  lemma PublishedKeep(s: State, s': State)
    requires BrokerOk(s) && Persists(s, s') && ChangesOk(s, s')
    ensures forall e :: IsPublished(s'.db, e) ==> InLogs(s', e)
  {
  }

  lemma ActorsKeep(s: State, s': State)
    requires BrokerOk(s) && Persists(s, s') && ChangesOk(s, s')
    ensures forall pub :: PublisherOk(s', PublisherAt(s', pub))
    ensures forall op :: OperatorOk(s', OperatorAt(s', op))
  {
  }

  lemma SessionsKeep(s: State, s': State)
    requires BrokerOk(s) && Persists(s, s') && ChangesOk(s, s')
    ensures forall p :: SessionOk(s', p)
    ensures forall p :: CoverOk(s', p)
  {
    forall p ensures SessionOk(s', p) && CoverOk(s', p) {
      assert Log(s, p) <= Log(s', p);
      if SessionAt(s', p) == SessionAt(s, p) && CommitOf(s', p) == CommitOf(s, p) {
        assert SessionOk(s, p) && CoverOk(s, p);
        CoverPersists(s, s', p);
      }
    }
  }

  /** The broker invariant is kept by growth whose changes are accounted for. */
  lemma BrokerKeeps(s: State, s': State)
    requires BrokerOk(s) && Persists(s, s') && ChangesOk(s, s')
    ensures BrokerOk(s')
  {
    LogsKeep(s, s');
    DeadLettersKeep(s, s');
    PublishedKeep(s, s');
    ActorsKeep(s, s');
    SessionsKeep(s, s');
  }
}
