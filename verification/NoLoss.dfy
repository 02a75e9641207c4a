/** No work is lost: every pending payment has an event that is still to be published, delivered or replayed. */
module NoLoss {
  import opened Domain
  import opened Tables
  import opened Messages
  import opened DeadLetters
  import opened Invariants
  import opened Pipeline
  import opened PipelineInvariant
  import opened Runs
  import opened Coverage

  /** The event waits in the outbox: pending, claimed, or parked until an operator requeues it. */
  predicate Unpublished(s: State, e: Id) {
    e in s.db.outbox && s.db.outbox[e].status != OutboxPublished
  }

  /** The event is in a log that its consumer has not committed past. */
  ghost predicate Undelivered(s: State, e: Id) {
    exists p, o :: CommitOf(s, p) <= o < |Log(s, p)| && Log(s, p)[o].origin == e
  }

  /** The dead letter holds the event's message and has not been replayed. */
  ghost predicate Keeps(s: State, source: Source, e: Id) {
    && e in s.db.outbox && source in s.db.deadLetters && s.db.deadLetters[source].state == Open
    && ReplayMessage(s.db.deadLetters[source]) == MessageOf(s.db.outbox[e])
  }

  /** The event's message is kept in an OPEN dead letter. */
  ghost predicate Kept(s: State, e: Id) {
    exists source :: Keeps(s, source, e)
  }

  ghost predicate Carried(s: State, e: Id) {
    Unpublished(s, e) || Undelivered(s, e) || Kept(s, e)
  }

  /** An event that has reached a log is still on its way, or has had its effect. */
  lemma {:induction false} LoggedIsCarried(s: State, p: Place, o: nat)
    requires BrokerOk(s) && Covered(s) && o < |Log(s, p)| && ConsumerOf(p.topic).Some?
    requires forall source :: source in s.db.deadLetters ==> s.db.deadLetters[source].state != Discarded
    ensures var e := Log(s, p)[o].origin;
            e in s.db.outbox && (Undelivered(s, e) || Kept(s, e) || Effect(s.db.transactions, s.db.outbox, s.db.outbox[e]))
    decreases s.stamp - Log(s, p)[o].stamp
  {
    var e, source := Log(s, p)[o].origin, SourceOf(p, o);
    assert EntryOk(s, p, o) && PlaceOf(source) == p;
    if o < CommitOf(s, p) {
      assert Settled(s, p, o);
      if source in s.db.deadLetters {
        assert DeadOk(s, source) && (s.db.deadLetters[source].state == Open ==> Keeps(s, source, e));
        if s.db.deadLetters[source].state == Republished {
          var p', o' := CopyOf(s, p, o);
          LoggedIsCarried(s, p', o');
        }
      }
    }
  }

  /** The copy a published replay left behind. */
  lemma CopyOf(s: State, p: Place, o: nat) returns (p': Place, o': nat)
    requires BrokerOk(s) && o < |Log(s, p)| && ConsumerOf(p.topic).Some? && IsRepublished(s.db, SourceOf(p, o))
    ensures o' < |Log(s, p')| && Log(s, p')[o'].origin == Log(s, p)[o].origin
    ensures Log(s, p)[o].stamp < Log(s, p')[o'].stamp < s.stamp && p'.topic == p.topic
  {
    var source := SourceOf(p, o);
    assert PlaceOf(source) == p && LaterCopy(s, source);
    p', o' :| 0 <= o' < |Log(s, p')| && Log(s, p')[o'].origin == Log(s, p)[o].origin
              && Log(s, p')[o'].stamp > Log(s, p)[o].stamp;
    assert EntryOk(s, p', o') && EntryOk(s, p, o);
  }

  lemma EventIsCarried(s: State, e: Id)
    requires BrokerOk(s) && Covered(s) && e in s.db.outbox && ConsumerOf(TopicFor(s.db.outbox[e].eventType)).Some?
    requires forall source :: source in s.db.deadLetters ==> s.db.deadLetters[source].state != Discarded
    ensures Carried(s, e) || Effect(s.db.transactions, s.db.outbox, s.db.outbox[e])
  {
    if s.db.outbox[e].status == OutboxPublished {
      assert IsPublished(s.db, e);
      var p, o :| 0 <= o < |Log(s, p)| && Log(s, p)[o].origin == e;
      assert EntryOk(s, p, o);
      LoggedIsCarried(s, p, o);
    }
  }

  lemma NoneDiscarded(dead: map<Source, DeadLetter>, attempts: map<Id, Attempt>, actions: seq<Audit>)
    requires DeadLettersOk(dead, attempts, actions)
    ensures forall source :: source in dead ==> dead[source].state != Discarded
  {
  }

  predicate EventOf(s: State, e: Id, t: Id) {
    EventIn(s.db.outbox, e, t)
  }

  /** An event of the payment that is unpublished, undelivered or kept. */
  ghost predicate HasCarrier(s: State, t: Id) {
    exists e :: EventOf(s, e, t) && Carried(s, e)
  }

  lemma PendingHasCarrier(s: State, t: Id)
    requires BrokerOk(s) && Covered(s) && CreatedOnce(s.db.transactions, s.db.outbox)
    requires forall source :: source in s.db.deadLetters ==> s.db.deadLetters[source].state != Discarded
    requires t in s.db.transactions && s.db.transactions[t].kind == Payment && s.db.transactions[t].status == Pending
    ensures HasCarrier(s, t)
  {
    var e :| e in s.db.outbox && CreatedOf(s.db.outbox[e], t);
    EventIsCarried(s, e);
    assert EventOf(s, e, t);
    if !Carried(s, e) {
      var r :| r in s.db.outbox && RiskOf(s.db.outbox[r], t);
      EventIsCarried(s, r);
      assert EventOf(s, r, t);
    }
  }

  /**
    No work is lost. Whatever stopped, was repeated, dead-lettered, requeued or
    pruned, a payment that is still PENDING has an event that is unpublished,
    undelivered or kept, as long as no offset was committed over an unsettled message.
   */
  lemma NoWorkLost(c: Config, run: Run, i: nat, t: Id)
    requires ValidConfig(c) && IsRun(c, run) && i < |run.states| && NoneOver(run, i)
    requires t in run.states[i].db.transactions && run.states[i].db.transactions[t].status == Pending
    ensures HasCarrier(run.states[i], t)
  {
    RunInv(c, run, i);
    CoveredExactly(c, run, i);
    var s := run.states[i];
    NoneDiscarded(s.db.deadLetters, s.db.attempts, s.db.actions);
    assert TxOk(s.db.transactions[t]);
    PendingHasCarrier(s, t);
  }

  /** And so no work is lost while no dead-lettering that stored no record is overtaken by a commit. */
  lemma NoneLostUnlessOvertaken(c: Config, run: Run, i: nat, t: Id)
    requires ValidConfig(c) && IsRun(c, run) && i < |run.states| && !Overtaken(run, i)
    requires t in run.states[i].db.transactions && run.states[i].db.transactions[t].status == Pending
    ensures HasCarrier(run.states[i], t)
  {
    NotOvertaken(c, run, i);
    NoWorkLost(c, run, i, t);
  }

  /** A dead letter that has left the replay window never returns to it. */
  lemma ExpiredForever(c: Config, run: Run, i: nat, j: nat, source: Source, now: int, later: int)
    requires ValidConfig(c) && IsRun(c, run) && i <= j < |run.states| && now <= later
    requires source in run.states[i].db.deadLetters
    requires CheckReplay(run.states[i].db.deadLetters[source], c.window, now) == Err(ReplayWindowExpired)
    ensures source in run.states[j].db.deadLetters
    ensures CheckReplay(run.states[j].db.deadLetters[source], c.window, later).Err?
  {
    RunPersists(c, run, i, j);
    assert DeadLetterGrows(run.states[i].db.deadLetters[source], run.states[j].db.deadLetters[source]);
  }
}
