/**
  Commit points and the work below them: a run leaves nothing unsettled below a commit
  point exactly as long as no commit is made over an unsettled message.
 */
module Coverage {
  import opened Domain
  import opened Messages
  import opened Pipeline
  import opened PipelineInvariant
  import opened PipelineTheorems
  import opened Runs

  /** Every message below a commit point has had its effect or is kept as a dead letter. */
  ghost predicate Covered(s: State) {
    forall p: Place, o :: ConsumerOf(p.topic).Some? && 0 <= o < CommitOf(s, p) && o < |Log(s, p)| ==> Settled(s, p, o)
  }

  ghost predicate IsUnsettled(s: State, p: Place, o: nat) {
    ConsumerOf(p.topic).Some? && o < |Log(s, p)| && !Settled(s, p, o)
  }

  /** The step commits an offset although a message at or below it is not settled. */
  ghost predicate CommitsOver(s: State, step: Step) {
    && step.SessionStep? && step.consume.CommitAction? && SessionAt(s, step.place).phase.Resolved?
    && exists o :: 0 <= o <= SessionAt(s, step.place).phase.offset && IsUnsettled(s, step.place, o)
  }

  predicate IsCommit(step: Step) {
    step.SessionStep? && step.consume.CommitAction?
  }

  // ----- only commits move commit points -----

  lemma PublisherKeepsCommits(c: Config, s: State, s': State, pub: Id, action: PublisherAction)
    requires PublisherNext(c, s, s', pub, action)
    ensures s'.commits == s.commits
  {
  }

  lemma OperatorKeepsCommits(c: Config, s: State, s': State, op: Id, action: OperatorAction)
    requires OperatorNext(c, s, s', op, action)
    ensures s'.commits == s.commits
  {
  }

  lemma ReaderKeepsCommits(s: State, s': State, p: Place, action: SessionAction)
    requires SessionNext(s, s', p, action) && !action.CommitAction?
    ensures s'.commits == s.commits
  {
  }

  lemma OnlyCommitsCommit(c: Config, s: State, s': State, step: Step)
    requires Next(c, s, s', step) && !IsCommit(step)
    ensures s'.commits == s.commits
  {
    match step
    case RequestStep(_) =>
    case PublisherStep(pub, action) => PublisherKeepsCommits(c, s, s', pub, action);
    case SessionStep(p, action) => ReaderKeepsCommits(s, s', p, action);
    case StrayStep(_) =>
    case OperatorStep(op, action) => OperatorKeepsCommits(c, s, s', op, action);
    case MaintenanceStep(_) =>
  }

  lemma OtherStepsKeepCover(s: State, s': State)
    requires Covered(s) && Persists(s, s') && s'.commits == s.commits && forall p :: SessionOk(s, p)
    ensures Covered(s')
  {
    forall p: Place, o: nat | ConsumerOf(p.topic).Some? && o < CommitOf(s', p) && o < |Log(s', p)| ensures Settled(s', p, o) {
      assert SessionOk(s, p) && Log(s, p) <= Log(s', p);
      assert Settled(s, p, o);
      AllSettledPersist(s, s', p);
    }
  }

  lemma CommitCovers(s: State, s': State, p: Place)
    requires Covered(s) && Commits(s, s', p)
    ensures Covered(s') <==> !CommitsOver(s, SessionStep(p, CommitAction))
  {
    var last := SessionAt(s, p).phase.offset;
    assert forall q, o :: IsUnsettled(s', q, o) <==> IsUnsettled(s, q, o);
    if o :| 0 <= o <= last && IsUnsettled(s, p, o) {
      assert IsUnsettled(s', p, o) && o < CommitOf(s', p);
    } else {
      forall q: Place, o: nat | ConsumerOf(q.topic).Some? && o < CommitOf(s', q) && o < |Log(s', q)| ensures Settled(s', q, o) {
        if q == p {
          assert !IsUnsettled(s, p, o);
        } else {
          assert Settled(s, q, o);
        }
      }
    }
  }

  /** A step keeps everything below the commit points settled exactly if it does not commit over an unsettled message. */
  lemma StepCovers(c: Config, s: State, s': State, step: Step)
    requires Inv(c, s) && c.maxAttempts >= 1 && Next(c, s, s', step) && Covered(s)
    ensures Covered(s') <==> !CommitsOver(s, step)
  {
    if IsCommit(step) {
      CommitCovers(s, s', step.place);
    } else {
      NextInv(c, s, s', step);
      OnlyCommitsCommit(c, s, s', step);
      OtherStepsKeepCover(s, s');
    }
  }

  // ----- over runs -----

  ghost predicate CoveredUpTo(run: Run, i: nat)
    requires i < |run.states|
  {
    forall j :: 0 <= j <= i ==> Covered(run.states[j])
  }

  ghost predicate NoneOver(run: Run, i: nat)
    requires i <= |run.steps| < |run.states|
  {
    forall j :: 0 <= j < i ==> !CommitsOver(run.states[j], run.steps[j])
  }

  lemma FirstCovered(c: Config, run: Run)
    requires IsRun(c, run)
    ensures CoveredUpTo(run, 0) && NoneOver(run, 0)
  {
    assert run.states[0] == INITIAL;
  }

  lemma CoversAt(c: Config, run: Run, i: nat)
    requires ValidConfig(c) && IsRun(c, run) && i < |run.steps| && Covered(run.states[i])
    ensures Covered(run.states[i + 1]) <==> !CommitsOver(run.states[i], run.steps[i])
  {
    RunInv(c, run, i);
    assert StepAt(c, run, i);
    StepCovers(c, run.states[i], run.states[i + 1], run.steps[i]);
  }

  lemma OneFurther(run: Run, i: nat)
    requires i + 1 < |run.states| == |run.steps| + 1
    ensures CoveredUpTo(run, i + 1) <==> CoveredUpTo(run, i) && Covered(run.states[i + 1])
    ensures NoneOver(run, i + 1) <==> NoneOver(run, i) && !CommitsOver(run.states[i], run.steps[i])
  {
  }

  ghost predicate ExactAt(run: Run, i: nat)
    requires i < |run.states| == |run.steps| + 1
  {
    CoveredUpTo(run, i) <==> NoneOver(run, i)
  }

  lemma ExactStep(c: Config, run: Run, i: nat)
    requires ValidConfig(c) && IsRun(c, run) && i < |run.steps| && ExactAt(run, i)
    ensures ExactAt(run, i + 1)
  {
    OneFurther(run, i);
    if CoveredUpTo(run, i) {
      CoversAt(c, run, i);
    }
  }

  lemma {:induction false} ExactRun(c: Config, run: Run, i: nat)
    requires ValidConfig(c) && IsRun(c, run) && i < |run.states|
    ensures ExactAt(run, i)
  {
    if i == 0 {
      FirstCovered(c, run);
    } else {
      ExactRun(c, run, i - 1);
      ExactStep(c, run, i - 1);
    }
  }

  /** A run leaves no unsettled message below any commit point if and only if it never commits over one. */
  lemma CoveredExactly(c: Config, run: Run, i: nat)
    requires ValidConfig(c) && IsRun(c, run) && i < |run.states|
    ensures CoveredUpTo(run, i) <==> NoneOver(run, i)
  {
    ExactRun(c, run, i);
  }

  // ----- what it takes to commit over a message -----

  /** The step gives up on a message without even a stored record. */
  predicate LosesRecord(s: State, step: Step, p: Place) {
    step == SessionStep(p, MoveFailsAction) && SessionAt(s, p).phase.Failing?
  }

  lemma OverNeedsGap(s: State, step: Step)
    requires BrokerOk(s) && Covered(s) && CommitsOver(s, step)
    ensures SessionAt(s, step.place).gap
  {
    var p := step.place;
    var o :| 0 <= o <= SessionAt(s, p).phase.offset && IsUnsettled(s, p, o);
    assert SessionOk(s, p) && CoverOk(s, p);
  }

  lemma OtherStepsKeepSessions(c: Config, s: State, s': State, step: Step)
    requires Next(c, s, s', step) && !step.SessionStep?
    ensures s'.sessions == s.sessions
  {
    match step
    case RequestStep(_) =>
    case PublisherStep(pub, action) => PublisherKeepsSessions(c, s, s', pub, action);
    case StrayStep(_) =>
    case OperatorStep(op, action) => OperatorKeepsSessions(c, s, s', op, action);
    case MaintenanceStep(_) =>
  }

  lemma PublisherKeepsSessions(c: Config, s: State, s': State, pub: Id, action: PublisherAction)
    requires PublisherNext(c, s, s', pub, action)
    ensures s'.sessions == s.sessions
  {
  }

  lemma OperatorKeepsSessions(c: Config, s: State, s': State, op: Id, action: OperatorAction)
    requires OperatorNext(c, s, s', op, action)
    ensures s'.sessions == s.sessions
  {
  }

  lemma ReaderOpensGap(s: State, s': State, q: Place, action: SessionAction, p: Place)
    requires SessionNext(s, s', q, action) && SessionAt(s', p).gap && !SessionAt(s, p).gap
    ensures LosesRecord(s, SessionStep(q, action), p)
  {
  }

  /** The partition's session is not restarted in steps j + 1 to i - 1. */
  predicate SameSession(run: Run, p: Place, j: nat, i: nat)
    requires i <= |run.steps|
  {
    forall n :: j < n < i ==> run.steps[n] != SessionStep(p, RestartAction)
  }

  /** In one session of the partition, a dead-lettering at step j stored no record, up to step i. */
  predicate FailedAt(run: Run, p: Place, j: nat, i: nat)
    requires i <= |run.steps| < |run.states|
  {
    j < i && LosesRecord(run.states[j], run.steps[j], p) && SameSession(run, p, j, i)
  }

  lemma RestartClearsGap(c: Config, s: State, s': State, step: Step, p: Place)
    requires Next(c, s, s', step) && SessionAt(s', p).gap
    ensures step != SessionStep(p, RestartAction)
  {
  }

  lemma GapOpens(c: Config, run: Run, i: nat, p: Place)
    requires IsRun(c, run) && i < |run.steps| && SessionAt(run.states[i + 1], p).gap && !SessionAt(run.states[i], p).gap
    ensures LosesRecord(run.states[i], run.steps[i], p)
  {
    assert StepAt(c, run, i);
    if run.steps[i].SessionStep? {
      ReaderOpensGap(run.states[i], run.states[i + 1], run.steps[i].place, run.steps[i].consume, p);
    } else {
      OtherStepsKeepSessions(c, run.states[i], run.states[i + 1], run.steps[i]);
    }
  }

  lemma NoFirstGap(c: Config, run: Run, p: Place)
    requires IsRun(c, run)
    ensures !SessionAt(run.states[0], p).gap
  {
    assert run.states[0] == INITIAL;
  }

  lemma {:induction false} GapNeedsFailure(c: Config, run: Run, i: nat, p: Place) returns (j: nat)
    requires IsRun(c, run) && i < |run.states| && SessionAt(run.states[i], p).gap
    ensures FailedAt(run, p, j, i)
  {
    NoFirstGap(c, run, p);
    if SessionAt(run.states[i - 1], p).gap {
      j := GapNeedsFailure(c, run, i - 1, p);
      assert StepAt(c, run, i - 1);
      RestartClearsGap(c, run.states[i - 1], run.states[i], run.steps[i - 1], p);
    } else {
      j := i - 1;
      GapOpens(c, run, i - 1, p);
    }
  }

  /**
    The first commit over an unsettled message comes after a dead-lettering in that
    partition that stored no record, with no restart of the partition in between.
   */
  lemma OverNeedsFailure(c: Config, run: Run, i: nat) returns (j: nat)
    requires ValidConfig(c) && IsRun(c, run) && i < |run.steps| && NoneOver(run, i)
    requires CommitsOver(run.states[i], run.steps[i])
    ensures FailedAt(run, run.steps[i].place, j, i)
  {
    RunInv(c, run, i);
    CoveredExactly(c, run, i);
    OverNeedsGap(run.states[i], run.steps[i]);
    j := GapNeedsFailure(c, run, i, run.steps[i].place);
  }

  /** A dead-lettering that stored no record is followed by a commit in the same session of its partition. */
  ghost predicate Overtaken(run: Run, n: nat)
    requires n <= |run.steps| < |run.states|
  {
    exists i, j, p :: 0 <= j < i < n && FailedAt(run, p, j, i) && run.steps[i] == SessionStep(p, CommitAction)
  }

  /** What an operator can watch for: a run in which no such failure is overtaken never commits over an unsettled message. */
  lemma {:induction false} NotOvertaken(c: Config, run: Run, n: nat)
    requires ValidConfig(c) && IsRun(c, run) && n <= |run.steps| && !Overtaken(run, n)
    ensures NoneOver(run, n)
  {
    if n > 0 {
      NotOvertaken(c, run, n - 1);
      if CommitsOver(run.states[n - 1], run.steps[n - 1]) {
        var j := OverNeedsFailure(c, run, n - 1);
      }
    }
  }
}
