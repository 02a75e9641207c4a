/**
  What can still become of a pending payment. A future is a continuation of the pipeline
  in which no handler of a lost session is left over and operators' clocks do not run
  back.
 */
module Futures {
  import opened Domain
  import opened Tables
  import opened DeadLetters
  import opened Pipeline
  import opened PipelineTheorems
  import opened Runs
  import opened Inductions
  import opened NoLoss
  import opened Outcomes

  // ----- continuations -----

  predicate Orderly(step: Step, now: int) {
    !step.StrayStep? && (step.OperatorStep? && step.operate.LookupAction? ==> step.operate.now >= now)
  }

  predicate OrderlyAt(c: Config, now: int, path: Run, i: nat)
    requires |path.states| == |path.steps| + 1 && i < |path.steps|
  {
    StepAt(c, path, i) && Orderly(path.steps[i], now)
  }

  predicate IsPath(c: Config, now: int, path: Run) {
    |path.states| == |path.steps| + 1 && forall i :: 0 <= i < |path.steps| ==> OrderlyAt(c, now, path, i)
  }

  predicate Joins(path: Run, s: State, s': State) {
    |path.states| > 0 && path.states[0] == s && path.states[|path.states| - 1] == s'
  }

  ghost predicate Leads(c: Config, now: int, s: State, s': State) {
    exists path :: IsPath(c, now, path) && Joins(path, s, s')
  }

  /** Some future decides the payment. */
  ghost predicate CanDecide(c: Config, s: State, t: Id, now: int) {
    exists s' :: Leads(c, now, s, s') && DecidedAt(s', t)
  }

  lemma StaysPut(c: Config, now: int, s: State)
    ensures Leads(c, now, s, s)
  {
    assert IsPath(c, now, Run([s], [])) && Joins(Run([s], []), s, s);
  }

  lemma LeadsOn(c: Config, now: int, s: State, s1: State, s2: State, step: Step)
    requires Leads(c, now, s, s1) && Next(c, s1, s2, step) && Orderly(step, now)
    ensures Leads(c, now, s, s2)
  {
    var path :| IsPath(c, now, path) && Joins(path, s, s1);
    var longer := Run(path.states + [s2], path.steps + [step]);
    forall i | 0 <= i < |longer.steps| ensures OrderlyAt(c, now, longer, i) {
      if i < |path.steps| {
        assert OrderlyAt(c, now, path, i);
      }
    }
    assert Joins(longer, s, s2);
  }

  lemma OneStep(c: Config, now: int, s: State, s': State, step: Step)
    requires Next(c, s, s', step) && Orderly(step, now)
    ensures Leads(c, now, s, s')
  {
    StaysPut(c, now, s);
    LeadsOn(c, now, s, s, s', step);
  }

  lemma {:induction false} LeadsAlong(c: Config, now: int, s: State, path: Run, n: nat)
    requires IsPath(c, now, path) && n <= |path.steps| && Leads(c, now, s, path.states[0])
    ensures Leads(c, now, s, path.states[n])
  {
    if n > 0 {
      LeadsAlong(c, now, s, path, n - 1);
      assert OrderlyAt(c, now, path, n - 1);
      LeadsOn(c, now, s, path.states[n - 1], path.states[n], path.steps[n - 1]);
    }
  }

  lemma LeadsThrough(c: Config, now: int, s: State, s1: State, s2: State)
    requires Leads(c, now, s, s1) && Leads(c, now, s1, s2)
    ensures Leads(c, now, s, s2)
  {
    var path :| IsPath(c, now, path) && Joins(path, s1, s2);
    LeadsAlong(c, now, s, path, |path.steps|);
  }

  // ----- names are never empty -----

  ghost predicate Named(db: Db) {
    "" !in db.outbox && "" !in db.transactions
  }

  lemma LedgerFirstNames(db: Db, db': Db, e: Id, row: ProcessedRow, outcome: RiskEvaluated, eventId: Id, now: int)
    requires Preservation.LedgerFirst(db, db', e, row, outcome, eventId, now)
    ensures db'.outbox.Keys <= db.outbox.Keys + {eventId} && db'.transactions.Keys <= db.transactions.Keys
  {
    assert Preservation.Subject(db, e).id in db.transactions;
  }

  lemma RiskFirstNames(db: Db, db': Db, e: Id, row: ProcessedRow, eventId: Id, now: int)
    requires Preservation.RiskFirst(db, db', e, row, eventId, now)
    ensures db'.outbox.Keys <= db.outbox.Keys + {eventId} && db'.transactions.Keys <= db.transactions.Keys
  {
  }

  lemma HandledNames(db: Db, db': Db, e: Id, eventId: Id, now: int)
    requires Preservation.Handled(db, db', e, eventId, now)
    ensures db'.outbox.Keys <= db.outbox.Keys + {eventId} && db'.transactions.Keys <= db.transactions.Keys
  {
    if row :| Preservation.RiskFirst(db, db', e, row, eventId, now) {
      RiskFirstNames(db, db', e, row, eventId, now);
    } else if row, outcome :| Preservation.LedgerFirst(db, db', e, row, outcome, eventId, now) {
      LedgerFirstNames(db, db', e, row, outcome, eventId, now);
    } else {
      assert db' == db.(processed := db'.processed);
    }
  }

  lemma ChangeNames(db: Db, db': Db, change: Change, maxAttempts: int)
    requires Changed(db, db', change, maxAttempts) && Named(db)
    ensures Named(db')
  {
    if change.Deliver? {
      HandledNames(db, db', change.origin, change.eventId, change.now);
    }
  }

  lemma NextNames(c: Config, s: State, s': State, step: Step)
    requires Inv(c, s) && c.maxAttempts >= 1 && Next(c, s, s', step) && Named(s.db)
    ensures Named(s'.db)
  {
    var change := NextChange(c, s, s', step);
    ChangeNames(s.db, s'.db, change, c.maxAttempts);
  }

  lemma FirstNames(c: Config, run: Run)
    requires IsRun(c, run)
    ensures Named(run.states[0].db)
  {
    assert run.states[0] == INITIAL;
  }

  lemma NamesAt(c: Config, run: Run, i: nat)
    requires ValidConfig(c) && IsRun(c, run) && i < |run.steps| && Named(run.states[i].db)
    ensures Named(run.states[i + 1].db)
  {
    RunInv(c, run, i);
    assert StepAt(c, run, i);
    NextNames(c, run.states[i], run.states[i + 1], run.steps[i]);
  }

  lemma {:induction false} RunNames(c: Config, run: Run, i: nat)
    requires ValidConfig(c) && IsRun(c, run) && i < |run.states|
    ensures Named(run.states[i].db)
  {
    if i == 0 {
      FirstNames(c, run);
    } else {
      RunNames(c, run, i - 1);
      NamesAt(c, run, i - 1);
    }
  }

  /** What holds in every reachable state, and so in every future of one. */
  ghost predicate Sane(c: Config, s: State) {
    Inv(c, s) && Named(s.db)
  }

  lemma SaneAt(c: Config, now: int, path: Run, i: nat)
    requires c.maxAttempts >= 1 && IsPath(c, now, path) && i < |path.steps| && Sane(c, path.states[i])
    ensures Sane(c, path.states[i + 1])
  {
    assert OrderlyAt(c, now, path, i);
    NextInv(c, path.states[i], path.states[i + 1], path.steps[i]);
    NextNames(c, path.states[i], path.states[i + 1], path.steps[i]);
  }

  lemma AlongSane(c: Config, now: int, path: Run, n: nat)
    requires c.maxAttempts >= 1 && IsPath(c, now, path) && n <= |path.steps| && Sane(c, path.states[0])
    ensures Sane(c, path.states[n])
  {
    var sane := (s: State) => Sane(c, s);
    forall i | 0 <= i < |path.states| - 1 ensures Passes(path.states, sane, i) {
      if Sane(c, path.states[i]) {
        SaneAt(c, now, path, i);
      }
    }
    Along(path.states, sane, n);
  }

  lemma LeadsSane(c: Config, now: int, s: State, s': State)
    requires c.maxAttempts >= 1 && Sane(c, s) && Leads(c, now, s, s')
    ensures Sane(c, s')
  {
    var path :| IsPath(c, now, path) && Joins(path, s, s');
    AlongSane(c, now, path, |path.steps|);
  }

  // ----- what an event can still do -----

  /** An OPEN dead letter that names the event. */
  predicate OpenLetter(db: Db, source: Source, e: Id) {
    source in db.deadLetters && db.deadLetters[source].eventId == Some(e) && db.deadLetters[source].state == Open
  }

  /**
    The event has its inbox row, and an OPEN dead letter names it: a delivery is a repeat,
    the replay check refuses the letter, and the prune guard keeps the row.
   */
  ghost predicate Barred(db: Db, e: Id) {
    EventProcessed(db, e) && exists source :: OpenLetter(db, source, e)
  }

  /** At this time both replay checks let an operator replay some dead letter of the event. */
  ghost predicate MayReplay(c: Config, db: Db, e: Id, now: int) {
    !EventProcessed(db, e) && exists source :: OpenLetter(db, source, e) && CheckReplay(db.deadLetters[source], c.window, now).Ok?
  }

  ghost predicate Movable(c: Config, s: State, e: Id, now: int) {
    !Barred(s.db, e) && (Unpublished(s, e) || Undelivered(s, e) || MayReplay(c, s.db, e, now))
  }

  ghost predicate CanMove(c: Config, s: State, t: Id, now: int) {
    exists e :: EventOf(s, e, t) && Movable(c, s, e, now)
  }

  /** No publisher and no operator is in the middle of its work. */
  ghost predicate Quiet(s: State) {
    (forall pub :: PublisherAt(s, pub).PubIdle?) && (forall op :: OperatorAt(s, op).OpIdle?)
  }
}
