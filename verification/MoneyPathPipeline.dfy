/**
  The statement-level money path and the pipeline agree: what a session commits is a step
  that the pipeline can take on the same database.
 */
module MoneyPathPipeline {
  import opened Domain
  import opened Tables
  import opened Messages
  import opened Handlers
  import opened Pipeline
  import opened PipelineTheorems
  import MP = MoneyPath
  import MoneyPathProofs

  /** An authorization works on the log entry that its delivery names. */
  predicate FromLog(s: State, job: MP.Job, p: Place, o: nat) {
    && job.Authorize? && p.topic == RiskTopic && o < |Log(s, p)|
    && EventId(Log(s, p)[o].message) == Ok(job.delivery.eventId)
    && job.delivery == Delivery(LedgerService, job.delivery.eventId, RiskTopic, p.partition, o)
    && ValidateRiskEvent(Log(s, p)[o].message.value) == Ok(job.event)
    && job.digest == Sha256(Log(s, p)[o].message.value)
  }

  /** The pipeline's name for the job's transaction. */
  function StepOf(job: MP.Job, p: Place, o: nat): Step {
    match job
    case Pay(key, hash, tx, eventId, now) => RequestStep(PayAction(key, hash, tx, eventId, now))
    case Fund(key, hash, tx, eventId, now) => RequestStep(FundAction(key, hash, tx, eventId, now))
    case Authorize(_, _, _, eventId, now) => StrayStep(StrayHandleAction(p, o, eventId, now))
  }

  lemma AtomicIsStep(c: Config, s: State, job: MP.Job, p: Place, o: nat)
    requires MP.ValidJob(job) && (job.Authorize? ==> FromLog(s, job, p, o))
    ensures Next(c, s, s.(db := After(s.db, MP.Atomic(s.db, job))), StepOf(job, p, o))
  {
    if job.Authorize? {
      assert Delivered(s, p, o, job.eventId, job.now)
          == ProcessRiskEvaluated(s.db, job.delivery, job.digest, job.event, job.eventId, job.now);
    }
  }

  /** Every commit of every session is a step of the pipeline, and keeps the pipeline's whole invariant. */
  lemma CommitIsPipelineStep(c: Config, hash: MP.Hash, m: MP.Machine, m': MP.Machine, session: Id, s: State, p: Place, o: nat)
    requires MoneyPathProofs.MachineOk(hash, m) && MP.Advances(hash, m, m', session)
    requires MP.Statement(m.db, m.sessions[session]).Commits?
    requires c.maxAttempts >= 1 && s.db == m.db && Inv(c, s)
    requires m.sessions[session].job.Authorize? ==> FromLog(s, m.sessions[session].job, p, o)
    ensures Next(c, s, s.(db := m'.db), StepOf(m.sessions[session].job, p, o))
    ensures Inv(c, s.(db := m'.db))
  {
    var job := m.sessions[session].job;
    assert MoneyPathProofs.SessionOk(m.db, m.sessions[session]);
    MoneyPathProofs.AnswersAtomically(m.db, m.sessions[session]);
    AtomicIsStep(c, s, job, p, o);
    NextInv(c, s, s.(db := m'.db), StepOf(job, p, o));
  }
}
