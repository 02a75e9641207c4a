/** The money path over whole runs: serial, solvent, and never stuck. */
module MoneyPathTheorems {
  import opened Domain
  import opened Tables
  import opened Inductions
  import opened MoneyLemmas
  import opened MoneyPath
  import opened MoneyPathProofs

  datatype Run = Run(states: seq<Machine>, steps: seq<Step>)

  predicate StepAt(hash: Hash, run: Run, i: nat)
    requires |run.states| == |run.steps| + 1 && i < |run.steps|
  {
    Next(hash, run.states[i], run.states[i + 1], run.steps[i])
  }

  /** From sound books and no open sessions, any steps in any order. */
  ghost predicate IsRun(hash: Hash, run: Run) {
    && |run.states| == |run.steps| + 1
    && run.states[0].sessions == map[] && run.states[0].holder == map[]
    && BooksOk(run.states[0].db.transactions, run.states[0].db.ledger)
    && (forall i :: 0 <= i < |run.steps| ==> StepAt(hash, run, i))
  }

  lemma FirstOk(hash: Hash, run: Run)
    requires IsRun(hash, run)
    ensures MachineOk(hash, run.states[0])
  {
    assert HeldBy(hash, run.states[0]) == map[];
  }

  lemma OkAt(hash: Hash, run: Run, i: nat)
    requires IsRun(hash, run) && i < |run.steps| && MachineOk(hash, run.states[i])
    ensures MachineOk(hash, run.states[i + 1])
  {
    assert StepAt(hash, run, i);
    NextKeeps(hash, run.states[i], run.states[i + 1], run.steps[i]);
  }

  lemma RunOk(hash: Hash, run: Run, i: nat)
    requires IsRun(hash, run) && i < |run.states|
    ensures MachineOk(hash, run.states[i])
  {
    FirstOk(hash, run);
    var holds := (m: Machine) => MachineOk(hash, m);
    forall j | 0 <= j < |run.states| - 1 ensures Passes(run.states, holds, j) {
      if MachineOk(hash, run.states[j]) {
        OkAt(hash, run, j);
      }
    }
    Along(run.states, holds, i);
  }

  /** In every interleaving, and whatever hashes collide, no customer account is ever overdrawn. */
  lemma NeverOverdrawn(hash: Hash, run: Run, i: nat, account: Id, currency: string)
    requires IsRun(hash, run) && i < |run.states| && IsCustomer(account)
    ensures Balance(run.states[i].db.ledger, account, currency) >= 0
  {
    RunOk(hash, run, i);
  }

  // ----- serial order -----

  /** The job whose session commits with this step. */
  function Committing(m: Machine, step: Step): Option<Job> {
    if step.Advance? && step.session in m.sessions && ValidJob(m.sessions[step.session].job)
       && Statement(m.db, m.sessions[step.session]).Commits?
    then Some(m.sessions[step.session].job) else None
  }

  /** The database after the first n steps when each committing job runs alone, all at once, at its commit. */
  function Serial(run: Run, n: nat): Db
    requires |run.states| == |run.steps| + 1 && n <= |run.steps|
  {
    if n == 0 then run.states[0].db
    else
      var db := Serial(run, n - 1);
      if run.steps[n - 1].Other? then run.steps[n - 1].db
      else
        match Committing(run.states[n - 1], run.steps[n - 1])
        case None => db
        case Some(job) => if ValidJob(job) then After(db, Atomic(db, job)) else db
  }

  lemma StepIsAtomic(hash: Hash, m: Machine, m': Machine, step: Step)
    requires MachineOk(hash, m) && Next(hash, m, m', step)
    ensures !step.Other? ==>
              match Committing(m, step)
              case None => m'.db == m.db
              case Some(job) => ValidJob(job) && Atomic(m.db, job).Ok? && Atomic(m.db, job).value.0 == m'.db
  {
    if step.Advance? {
      var session := m.sessions[step.session];
      assert SessionOk(m.db, session);
      AnswersAtomically(m.db, session);
    }
  }

  /** Any interleaving leaves the tables that running the committed jobs one by one, in commit order, leaves. */
  lemma {:induction false} Serializable(hash: Hash, run: Run, n: nat)
    requires IsRun(hash, run) && n <= |run.steps|
    ensures run.states[n].db == Serial(run, n)
  {
    if n > 0 {
      Serializable(hash, run, n - 1);
      RunOk(hash, run, n - 1);
      assert StepAt(hash, run, n - 1);
      StepIsAtomic(hash, run.states[n - 1], run.states[n], run.steps[n - 1]);
    }
  }

  /** The session fails only because its inbox row was pruned between the insert that met it and the update. */
  predicate LostItsRow(db: Db, session: Session) {
    && session.job.Authorize? && session.phase.Seen?
    && (session.job.delivery.consumer, session.job.delivery.eventId) !in db.processed
  }

  /**
    A commit and a refusal are the ones that the whole operation, run alone at that moment,
    gives. A session fails in another way if and only if its inbox row was pruned between two
    of its statements, and then the tables stay as they are.
   */
  lemma AnswersAreAtomic(hash: Hash, run: Run, i: nat, s: Id)
    requires IsRun(hash, run) && i < |run.steps| && run.steps[i] == Advance(s)
    ensures s in run.states[i].sessions && ValidJob(run.states[i].sessions[s].job)
    ensures var m := run.states[i]; var move := Statement(m.db, m.sessions[s]);
            && (move.Commits? ==> Atomic(m.db, m.sessions[s].job) == Ok((move.db, move.answer)) && run.states[i + 1].db == move.db)
            && (move.Refuses? ==> Atomic(m.db, m.sessions[s].job) == Err(move.error))
            && (move.Retries? <==> LostItsRow(m.db, m.sessions[s]))
            && (!move.Commits? ==> run.states[i + 1].db == m.db)
  {
    RunOk(hash, run, i);
    assert StepAt(hash, run, i);
    assert SessionOk(run.states[i].db, run.states[i].sessions[s]);
    AnswersAtomically(run.states[i].db, run.states[i].sessions[s]);
  }

  // ----- no deadlock -----

  /** Sessions ask for resources in rising order. */
  lemma WantsRise(hash: Hash, db: Db, session: Session, r: Resource)
    requires PhaseOk(db, session) && r in Holds(hash, session) && Wants(hash, db, session).Some?
    ensures Rank(r) < Rank(Wants(hash, db, session).value)
  {
  }

  /** The rank of what a session asks for next; one that asks for nothing is past them all. */
  function Need(hash: Hash, m: Machine, s: Id): nat {
    if s in m.sessions && Wants(hash, m.db, m.sessions[s]).Some? then Rank(Wants(hash, m.db, m.sessions[s]).value) else 5
  }

  /** Whoever a session waits for is further along in the order. */
  lemma WaitsClimb(hash: Hash, m: Machine, s: Id, other: Id)
    requires MachineOk(hash, m) && Waits(hash, m, s, other)
    ensures other in m.sessions && Need(hash, m, s) < Need(hash, m, other)
  {
    var r := Wants(hash, m.db, m.sessions[s]).value;
    var held := HeldBy(hash, m);
    assert r in held[other];
    assert SessionOk(m.db, m.sessions[other]);
    if Wants(hash, m.db, m.sessions[other]).Some? {
      WantsRise(hash, m.db, m.sessions[other], r);
    }
  }

  ghost predicate WaitChain(hash: Hash, m: Machine, path: seq<Id>) {
    forall i :: 0 <= i < |path| - 1 ==> Waits(hash, m, path[i], path[i + 1])
  }

  /** The wait-for graph has no cycle. */
  lemma {:induction false} ChainClimbs(hash: Hash, m: Machine, path: seq<Id>)
    requires MachineOk(hash, m) && WaitChain(hash, m, path) && |path| >= 2
    ensures Need(hash, m, path[0]) < Need(hash, m, path[|path| - 1])
  {
    assert Waits(hash, m, path[0], path[1]);
    WaitsClimb(hash, m, path[0], path[1]);
    if |path| > 2 {
      var rest := path[1..];
      forall i | 0 <= i < |rest| - 1 ensures Waits(hash, m, rest[i], rest[i + 1]) {
        assert Waits(hash, m, path[i + 1], path[i + 2]);
      }
      ChainClimbs(hash, m, rest);
    }
  }

  /** In no reachable state do sessions wait for each other in a circle. */
  lemma NoDeadlock(hash: Hash, run: Run, i: nat, path: seq<Id>)
    requires IsRun(hash, run) && i < |run.states| && |path| >= 2
    requires WaitChain(hash, run.states[i], path)
    ensures path[0] != path[|path| - 1]
  {
    RunOk(hash, run, i);
    ChainClimbs(hash, run.states[i], path);
  }

  /** Following the waits from any session leads to one that can go on. */
  lemma {:induction false} SomeoneGoes(hash: Hash, m: Machine, s: Id) returns (free: Id)
    requires MachineOk(hash, m) && s in m.sessions
    ensures free in m.sessions && !Blocked(hash, m, free)
    decreases 5 - Need(hash, m, s)
  {
    if Blocked(hash, m, s) {
      var r :| r in m.holder && Waits(hash, m, s, m.holder[r]);
      WaitsClimb(hash, m, s, m.holder[r]);
      free := SomeoneGoes(hash, m, m.holder[r]);
    } else {
      free := s;
    }
  }

  // ----- and every session ends -----

  function StatementsLeft(phase: Phase): nat {
    match phase
    case Started => 6
    case Claimed => 5
    case AccountLocked => 5
    case RowLocked(_) => 4
    case Referenced => 4
    case FundsLocked(_) => 3
    case Credited(_) => 3
    case Seen => 2
    case _ => 1
  }

  function Left(sessions: map<Id, Session>): Id -> int {
    (s: Id) => if s in sessions then StatementsLeft(sessions[s].phase) else 0
  }

  ghost function Work(sessions: map<Id, Session>): int {
    Total(sessions.Keys, Left(sessions))
  }

  lemma StatementsRunOut(db: Db, session: Session, phase: Phase)
    requires ValidJob(session.job) && PhaseOk(db, session) && Statement(db, session) == Goes(phase)
    ensures StatementsLeft(phase) < StatementsLeft(session.phase)
  {
  }

  lemma WorkIsPositive(sessions: map<Id, Session>)
    ensures Work(sessions) >= 0
  {
    TotalNonNegative(sessions.Keys, Left(sessions));
  }

  lemma WorkWithout(sessions: map<Id, Session>, s: Id)
    requires s in sessions
    ensures Work(sessions) == StatementsLeft(sessions[s].phase) + Work(sessions - {s})
  {
    TotalSplit(sessions.Keys, s, Left(sessions));
    assert (sessions - {s}).Keys == sessions.Keys - {s};
    TotalSame(sessions.Keys - {s}, Left(sessions), Left(sessions - {s}));
  }

  lemma WorkReplaced(sessions: map<Id, Session>, s: Id, next: Session)
    requires s in sessions && StatementsLeft(next.phase) < StatementsLeft(sessions[s].phase)
    ensures Work(sessions[s := next]) < Work(sessions)
  {
    WorkWithout(sessions, s);
    WorkWithout(sessions[s := next], s);
    assert sessions[s := next] - {s} == sessions - {s};
  }

  lemma WorkDrops(hash: Hash, m: Machine, m': Machine, s: Id)
    requires s in m.sessions && SessionOk(m.db, m.sessions[s]) && Advances(hash, m, m', s)
    ensures 0 <= Work(m'.sessions) < Work(m.sessions)
  {
    WorkIsPositive(m'.sessions);
    var move := Statement(m.db, m.sessions[s]);
    if move.Goes? {
      StatementsRunOut(m.db, m.sessions[s], move.phase);
      WorkReplaced(m.sessions, s, m.sessions[s].(phase := move.phase));
    } else {
      WorkWithout(m.sessions, s);
    }
  }

  function Advanced(hash: Hash, m: Machine, s: Id): (m': Machine)
    requires s in m.sessions && ValidJob(m.sessions[s].job) && !Blocked(hash, m, s)
    ensures Advances(hash, m, m', s)
  {
    match Statement(m.db, m.sessions[s])
    case Goes(phase) =>
      var next := m.sessions[s].(phase := phase);
      m.(sessions := m.sessions[s := next],
         holder := map r | r in m.holder.Keys + Holds(hash, next) :: if r in Holds(hash, next) then s else m.holder[r])
    case Refuses(_) => Ended(m, s)
    case Commits(db, _) => Ended(m, s).(db := db)
    case Retries => Ended(m, s)
  }

  ghost predicate SomeAdvance(hash: Hash, m: Machine, m': Machine) {
    exists s :: Advances(hash, m, m', s)
  }

  ghost predicate AllAdvance(hash: Hash, states: seq<Machine>) {
    forall i :: 0 <= i < |states| - 1 ==> SomeAdvance(hash, states[i], states[i + 1])
  }

  lemma OneAdvances(hash: Hash, m: Machine, s: Id) returns (m': Machine)
    requires MachineOk(hash, m) && s in m.sessions
    ensures SomeAdvance(hash, m, m') && MachineOk(hash, m') && 0 <= Work(m'.sessions) < Work(m.sessions)
  {
    var free := SomeoneGoes(hash, m, s);
    assert SessionOk(m.db, m.sessions[free]);
    m' := Advanced(hash, m, free);
    WorkDrops(hash, m, m', free);
    NextKeeps(hash, m, m', Advance(free));
  }

  lemma Prepend(hash: Hash, m: Machine, states: seq<Machine>)
    requires states != [] && SomeAdvance(hash, m, states[0]) && AllAdvance(hash, states)
    ensures AllAdvance(hash, [m] + states)
  {
  }

  /** From any reachable state, the open sessions alone can finish, in a bounded number of statements. */
  lemma {:induction false} SessionsDrain(hash: Hash, m: Machine) returns (states: seq<Machine>)
    requires MachineOk(hash, m)
    ensures |states| > 0 && states[0] == m && states[|states| - 1].sessions == map[] && |states| - 1 <= Work(m.sessions)
    ensures AllAdvance(hash, states)
    decreases Work(m.sessions)
  {
    if m.sessions == map[] {
      states := [m];
    } else {
      var s :| s in m.sessions;
      var m' := OneAdvances(hash, m, s);
      states := SessionsDrain(hash, m');
      Prepend(hash, m, states);
      states := [m] + states;
    }
  }
}
