/** Runs of the pipeline: what every state of a run satisfies and what no run takes back. */
module Runs {
  import opened Domain
  import opened Invariants
  import opened Inductions
  import opened Pipeline
  import opened PipelineInvariant
  import opened PipelineTheorems

  lemma InvAt(c: Config, run: Run, i: nat)
    requires ValidConfig(c) && IsRun(c, run) && i < |run.steps| && Inv(c, run.states[i])
    ensures Inv(c, run.states[i + 1])
  {
    assert StepAt(c, run, i);
    NextInv(c, run.states[i], run.states[i + 1], run.steps[i]);
  }

  /** Every state of every run satisfies the invariant. */
  lemma RunInv(c: Config, run: Run, i: nat)
    requires ValidConfig(c) && IsRun(c, run) && i < |run.states|
    ensures Inv(c, run.states[i])
  {
    FirstInv(c, run);
    var holds := (s: State) => Inv(c, s);
    forall j | 0 <= j < |run.states| - 1 ensures Passes(run.states, holds, j) {
      if Inv(c, run.states[j]) {
        InvAt(c, run, j);
      }
    }
    Along(run.states, holds, i);
  }

  lemma FirstInv(c: Config, run: Run)
    requires IsRun(c, run)
    ensures Inv(c, run.states[0])
  {
    InitialInv(c);
    assert run.states[0] == INITIAL;
  }

  lemma PersistsTransitive(a: State, b: State, c: State)
    requires Persists(a, b) && Persists(b, c)
    ensures Persists(a, c)
  {
  }

  lemma StepPersists(c: Config, run: Run, i: nat)
    requires ValidConfig(c) && IsRun(c, run) && i + 1 < |run.states|
    ensures Persists(run.states[i], run.states[i + 1])
  {
    RunInv(c, run, i);
    assert StepAt(c, run, i);
    NextInv(c, run.states[i], run.states[i + 1], run.steps[i]);
  }

  /** Nothing a run has established is taken back later in it. */
  lemma {:induction false} RunPersists(c: Config, run: Run, i: nat, j: nat)
    requires ValidConfig(c) && IsRun(c, run) && i <= j < |run.states|
    ensures Persists(run.states[i], run.states[j])
    decreases j
  {
    if i < j {
      RunPersists(c, run, i, j - 1);
      StepPersists(c, run, j - 1);
      PersistsTransitive(run.states[i], run.states[j - 1], run.states[j]);
    }
  }

  /** What step i of a run did to the database. */
  lemma ChangeAt(c: Config, run: Run, i: nat) returns (change: Change)
    requires ValidConfig(c) && IsRun(c, run) && i < |run.steps|
    ensures Changed(run.states[i].db, run.states[i + 1].db, change, c.maxAttempts)
    ensures change.Deliver? ==> HandlerClock(run.steps[i]) == Some(change.now)
    ensures change.Trim? ==> run.steps[i].MaintenanceStep? && run.steps[i].maintain.PruneAction?
                             && change.victims == run.steps[i].maintain.victims
  {
    RunInv(c, run, i);
    assert StepAt(c, run, i);
    change := NextChange(c, run.states[i], run.states[i + 1], run.steps[i]);
  }

  lemma EventsAt(c: Config, run: Run, i: nat)
    requires ValidConfig(c) && IsRun(c, run) && i < |run.states|
    ensures var db := run.states[i].db; EventsOk(db.transactions, db.outbox, db.processed)
  {
    RunInv(c, run, i);
  }
}
