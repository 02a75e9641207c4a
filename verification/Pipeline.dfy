/**
  The whole pipeline as a state machine: any number of outbox publishers, one
  consumer session per topic partition, stray handlers of sessions that have lost
  their partition, and any number of operators, over one database and one broker.
  Each SQL transaction, each broker append and each offset commit is one step, and
  every participant may stop for good between any two of its steps. Clocks are
  arguments of the steps and are not assumed to agree.
 */
module Pipeline {
  import opened Domain
  import opened Tables
  import opened Messages
  import opened Payments
  import opened Handlers
  import opened DeadLetters
  import Outbox

  datatype Place = Place(topic: Topic, partition: nat)

  /** A log entry. `origin` is the outbox row it is a copy of, `stamp` its position in broker time. */
  datatype Entry = Entry(origin: Id, message: Message, stamp: nat)

  /** One pass through the body of `RunLoop`. */
  datatype Phase =
    | Idle
    | Handling(offset: nat)   // the handler has not succeeded yet
    | Failing(offset: nat)    // all attempts failed, nothing recorded yet
    | Recorded(offset: nat)   // dead-letter row stored, dead-letter topic not yet confirmed
    | Resolved(offset: nat)   // handled, or durably dead-lettered

  /** A reader's session on a partition. `gap` says that it has passed a message for which it could not even store a record. */
  datatype Session = Session(next: nat, phase: Phase, gap: bool)

  datatype Publisher = PubIdle | PubClaimed(event: Id) | PubAccepted(event: Id) | PubRejected(event: Id)

  datatype Operator =
    | OpIdle
    | OpLooked(source: Source)
    | OpChecked(source: Source)
    | OpStarted(source: Source, attempt: Id)
    | OpSent(source: Source, attempt: Id)
    | OpUnsent(source: Source, attempt: Id)

  datatype State = State(
    db: Db,
    logs: map<Place, seq<Entry>>,
    stamp: nat,
    commits: map<Place, nat>,
    sessions: map<Place, Session>,
    publishers: map<Id, Publisher>,
    operators: map<Id, Operator>)

  datatype Config = Config(maxAttempts: int, window: int, keep: int, batch: nat)

  /** The settings the constructors let through. */
  predicate ValidConfig(c: Config) {
    c.maxAttempts >= 1 && c.window > 0 && c.keep >= c.window && 1 <= c.batch
  }

  function Log(s: State, p: Place): seq<Entry> {
    if p in s.logs then s.logs[p] else []
  }

  function CommitOf(s: State, p: Place): nat {
    if p in s.commits then s.commits[p] else 0
  }

  function SessionAt(s: State, p: Place): Session {
    if p in s.sessions then s.sessions[p] else Session(0, Idle, false)
  }

  function PublisherAt(s: State, pub: Id): Publisher {
    if pub in s.publishers then s.publishers[pub] else PubIdle
  }

  function OperatorAt(s: State, op: Id): Operator {
    if op in s.operators then s.operators[op] else OpIdle
  }

  const INITIAL := State(EMPTY_DB, map[], 0, map[], map[], map[], map[])

  function Append(s: State, p: Place, origin: Id, m: Message): State {
    s.(logs := s.logs[p := Log(s, p) + [Entry(origin, m, s.stamp)]], stamp := s.stamp + 1)
  }

  /** The dead-letter key of a consumed message. */
  function SourceOf(p: Place, offset: nat): Source
    requires ConsumerOf(p.topic).Some?
  {
    Source(ConsumerOf(p.topic).value, p.topic, p.partition, offset)
  }

  function PlaceOf(source: Source): Place {
    Place(source.topic, source.partition)
  }

  function SetSession(s: State, p: Place, session: Session): State {
    s.(sessions := s.sessions[p := session])
  }

  function SetPhase(s: State, p: Place, phase: Phase): State {
    SetSession(s, p, SessionAt(s, p).(phase := phase))
  }

  function SetPublisher(s: State, pub: Id, phase: Publisher): State {
    s.(publishers := s.publishers[pub := phase])
  }

  function SetOperator(s: State, op: Id, phase: Operator): State {
    s.(operators := s.operators[op := phase])
  }

  datatype RequestAction =
    | PayAction(key: Id, hash: string, tx: Transaction, eventId: Id, now: int)
    | FundAction(key: Id, hash: string, tx: Transaction, eventId: Id, now: int)

  datatype PublisherAction =
    | ClaimAction(event: Id, now: int, locked: set<Id>)
    | AcceptAction(partition: nat, acked: bool)
    | RejectAction
    | MarkPublishedAction(now: int)
    | MarkFailedAction(now: int)
    | PublisherStopAction

  datatype SessionAction =
    | FetchAction
    | HandleAction(eventId: Id, now: int, acked: bool)
    | GiveUpAction
    | RecordAction(now: int)
    | PublishDeadAction(now: int)
    | MoveFailsAction
    | CommitAction
    | CommitFailsAction
    | RestartAction

  /** What a session that has lost its partition may still do. */
  datatype StrayAction =
    | StrayHandleAction(place: Place, offset: nat, eventId: Id, now: int)
    | StrayRecordAction(place: Place, offset: nat, now: int)
    | StrayMarkAction(source: Source, now: int)

  datatype OperatorAction =
    | LookupAction(source: Source, now: int)
    | CheckAction
    | StartAction(attempt: Id, now: int)
    | SendAction(partition: nat)
    | SendFailsAction(partition: nat, appended: bool)
    | FinishAction
    | OperatorStopAction

  datatype MaintenanceAction =
    | RequeueAction(event: Id, now: int)
    | PruneAction(now: int, busy: set<InboxKey>, victims: set<InboxKey>)

  datatype Step =
    | RequestStep(request: RequestAction)
    | PublisherStep(pub: Id, publish: PublisherAction)
    | SessionStep(place: Place, consume: SessionAction)
    | StrayStep(stray: StrayAction)
    | OperatorStep(op: Id, operate: OperatorAction)
    | MaintenanceStep(maintain: MaintenanceAction)

  // ----- requests -----

  /** NewID never draws an empty id. */
  predicate CreatesPayment(s: State, s': State, key: Id, hash: string, tx: Transaction, eventId: Id, now: int) {
    NewPayment(tx) && tx.id != "" && eventId != "" && s' == s.(db := After(s.db, CreatePayment(s.db, key, hash, tx, eventId, now)))
  }

  predicate CreatesDeposit(s: State, s': State, key: Id, hash: string, tx: Transaction, eventId: Id, now: int) {
    NewDeposit(tx) && tx.id != "" && eventId != "" && s' == s.(db := After(s.db, CreateDeposit(s.db, key, hash, tx, eventId, now)))
  }

  // ----- publishers -----

  predicate Claims(s: State, s': State, pub: Id, e: Id, now: int, locked: set<Id>) {
    && PublisherAt(s, pub).PubIdle?
    && Outbox.IsNext(s.db.outbox, now, locked, e)
    && s' == SetPublisher(s.(db := s.db.(outbox := Outbox.Claimed(s.db.outbox, e, now))), pub, PubClaimed(e))
  }

  /** The broker appends the message; the publisher may still be told that it failed. */
  predicate Accepts(s: State, s': State, pub: Id, partition: nat, acked: bool) {
    && PublisherAt(s, pub).PubClaimed?
    && var e := PublisherAt(s, pub).event;
       && e in s.db.outbox
       && s' == SetPublisher(Append(s, Place(TopicFor(s.db.outbox[e].eventType), partition), e, MessageOf(s.db.outbox[e])),
                             pub, if acked then PubAccepted(e) else PubRejected(e))
  }

  predicate Rejects(s: State, s': State, pub: Id) {
    PublisherAt(s, pub).PubClaimed? && s' == SetPublisher(s, pub, PubRejected(PublisherAt(s, pub).event))
  }

  predicate MarksPublished(s: State, s': State, pub: Id, now: int) {
    && PublisherAt(s, pub).PubAccepted?
    && s' == SetPublisher(s.(db := s.db.(outbox := Outbox.MarkPublished(s.db.outbox, PublisherAt(s, pub).event, now))), pub, PubIdle)
  }

  predicate MarksFailed(c: Config, s: State, s': State, pub: Id, now: int) {
    && PublisherAt(s, pub).PubRejected?
    && s' == SetPublisher(s.(db := s.db.(outbox := Outbox.MarkFailed(s.db.outbox, PublisherAt(s, pub).event, c.maxAttempts, now))),
                          pub, PubIdle)
  }

  predicate Requeues(s: State, s': State, e: Id, now: int) {
    s' == s.(db := After(s.db, Outbox.Requeue(s.db, e, now)))
  }

  // ----- consumer sessions -----

  predicate Fetches(s: State, s': State, p: Place) {
    var session := SessionAt(s, p);
    && ConsumerOf(p.topic).Some? && session.phase.Idle? && session.next < |Log(s, p)|
    && s' == SetSession(s, p, session.(next := session.next + 1, phase := Handling(session.next)))
  }

  function Delivered(s: State, p: Place, offset: nat, eventId: Id, now: int): Result<(Db, bool)>
    requires offset < |Log(s, p)|
  {
    Handle(s.db, p.topic, p.partition, offset, Log(s, p)[offset].message, eventId, now)
  }

  /** One attempt of the handler. Its commit may succeed although the service is told otherwise. */
  predicate Handles(s: State, s': State, p: Place, eventId: Id, now: int, acked: bool) {
    var session := SessionAt(s, p);
    && session.phase.Handling? && session.phase.offset < |Log(s, p)| && eventId != ""
    && var r := Delivered(s, p, session.phase.offset, eventId, now);
       s' == SetPhase(s.(db := After(s.db, r)), p,
                      if r.Ok? && acked then Resolved(session.phase.offset) else session.phase)
  }

  predicate GivesUp(s: State, s': State, p: Place) {
    SessionAt(s, p).phase.Handling? && s' == SetPhase(s, p, Failing(SessionAt(s, p).phase.offset))
  }

  function DeadLettered(s: State, p: Place, offset: nat, now: int): Db
    requires ConsumerOf(p.topic).Some? && offset < |Log(s, p)|
  {
    Upsert(s.db, RecordFromMessage(SourceOf(p, offset), Log(s, p)[offset].message, now))
  }

  predicate Records(s: State, s': State, p: Place, now: int) {
    var session := SessionAt(s, p);
    && ConsumerOf(p.topic).Some? && session.phase.Failing? && session.phase.offset < |Log(s, p)|
    && var offset := session.phase.offset;
       var db := DeadLettered(s, p, offset, now);
       && s' == SetPhase(s.(db := db), p,
                         if db.deadLetters[SourceOf(p, offset)].kafkaPublishedAt.Some? then Resolved(offset) else Recorded(offset))
  }

  predicate PublishesDead(s: State, s': State, p: Place, now: int) {
    var session := SessionAt(s, p);
    && ConsumerOf(p.topic).Some? && session.phase.Recorded?
    && var r := MarkDeadLetterPublished(s.db, SourceOf(p, session.phase.offset), now);
       && r.Ok?
       && s' == SetPhase(s.(db := After(s.db, r)), p, Resolved(session.phase.offset))
  }

  predicate MoveFails(s: State, s': State, p: Place) {
    var session := SessionAt(s, p);
    && (session.phase.Failing? || session.phase.Recorded?)
    && s' == SetSession(s, p, session.(phase := Idle, gap := session.gap || session.phase.Failing?))
  }

  predicate Commits(s: State, s': State, p: Place) {
    && SessionAt(s, p).phase.Resolved?
    && s' == SetPhase(s.(commits := s.commits[p := SessionAt(s, p).phase.offset + 1]), p, Idle)
  }

  predicate CommitFails(s: State, s': State, p: Place) {
    SessionAt(s, p).phase.Resolved? && s' == SetPhase(s, p, Idle)
  }

  /** A crash or a rebalance: the next session starts at the committed offset. */
  predicate Restarts(s: State, s': State, p: Place) {
    s' == SetSession(s, p, Session(CommitOf(s, p), Idle, false))
  }

  predicate StrayHandles(s: State, s': State, p: Place, offset: nat, eventId: Id, now: int) {
    && offset < |Log(s, p)| && eventId != ""
    && s' == s.(db := After(s.db, Delivered(s, p, offset, eventId, now)))
  }

  predicate StrayRecords(s: State, s': State, p: Place, offset: nat, now: int) {
    && ConsumerOf(p.topic).Some? && offset < |Log(s, p)|
    && s' == s.(db := DeadLettered(s, p, offset, now))
  }

  predicate StrayMarks(s: State, s': State, source: Source, now: int) {
    s' == s.(db := After(s.db, MarkDeadLetterPublished(s.db, source, now)))
  }

  // ----- operators -----

  predicate Looks(c: Config, s: State, s': State, op: Id, source: Source, now: int) {
    && OperatorAt(s, op).OpIdle? && source in s.db.deadLetters
    && CheckReplay(s.db.deadLetters[source], c.window, now).Ok?
    && s' == SetOperator(s, op, OpLooked(source))
  }

  predicate Checks(s: State, s': State, op: Id) {
    && OperatorAt(s, op).OpLooked?
    && var source := OperatorAt(s, op).source;
       && source in s.db.deadLetters
       && (s.db.deadLetters[source].eventId.Some? ==> !EventProcessed(s.db, s.db.deadLetters[source].eventId.value))
       && s' == SetOperator(s, op, OpChecked(source))
  }

  predicate Starts(s: State, s': State, op: Id, attempt: Id, now: int) {
    && OperatorAt(s, op).OpChecked?
    && var source := OperatorAt(s, op).source;
       var r := StartReplay(s.db, source, attempt, now);
       && r.Ok?
       && s' == SetOperator(s.(db := After(s.db, r)), op, OpStarted(source, attempt))
  }

  /** The replay writes the recorded message to the source topic. */
  function Resent(s: State, source: Source, partition: nat): State
    requires source in s.db.deadLetters && source.offset < |Log(s, PlaceOf(source))|
  {
    Append(s, Place(source.topic, partition), Log(s, PlaceOf(source))[source.offset].origin,
           ReplayMessage(s.db.deadLetters[source]))
  }

  predicate Sends(s: State, s': State, op: Id, partition: nat) {
    && OperatorAt(s, op).OpStarted?
    && var source := OperatorAt(s, op).source;
       && source in s.db.deadLetters && source.offset < |Log(s, PlaceOf(source))|
       && s' == SetOperator(Resent(s, source, partition), op, OpSent(source, OperatorAt(s, op).attempt))
  }

  predicate SendFails(s: State, s': State, op: Id, partition: nat, appended: bool) {
    && OperatorAt(s, op).OpStarted?
    && var source := OperatorAt(s, op).source;
       && source in s.db.deadLetters && source.offset < |Log(s, PlaceOf(source))|
       && s' == SetOperator(if appended then Resent(s, source, partition) else s, op,
                            OpUnsent(source, OperatorAt(s, op).attempt))
  }

  predicate Finishes(s: State, s': State, op: Id) {
    var phase := OperatorAt(s, op);
    && (phase.OpSent? || phase.OpUnsent?)
    && s' == SetOperator(s.(db := After(s.db, FinishReplay(s.db, phase.attempt, phase.source, phase.OpSent?))), op, OpIdle)
  }

  predicate Prunes(c: Config, s: State, s': State, now: int, locked: set<InboxKey>, victims: set<InboxKey>) {
    && IsPruneBatch(s.db, now - c.keep, c.batch, locked, victims)
    && s' == s.(db := Prune(s.db, now - c.keep, victims))
  }

  predicate RequestNext(s: State, s': State, action: RequestAction) {
    match action
    case PayAction(key, hash, tx, eventId, now) => CreatesPayment(s, s', key, hash, tx, eventId, now)
    case FundAction(key, hash, tx, eventId, now) => CreatesDeposit(s, s', key, hash, tx, eventId, now)
  }

  predicate PublisherNext(c: Config, s: State, s': State, pub: Id, action: PublisherAction) {
    match action
    case ClaimAction(e, now, locked) => Claims(s, s', pub, e, now, locked)
    case AcceptAction(partition, acked) => Accepts(s, s', pub, partition, acked)
    case RejectAction => Rejects(s, s', pub)
    case MarkPublishedAction(now) => MarksPublished(s, s', pub, now)
    case MarkFailedAction(now) => MarksFailed(c, s, s', pub, now)
    case PublisherStopAction => s' == SetPublisher(s, pub, PubIdle)
  }

  predicate SessionNext(s: State, s': State, p: Place, action: SessionAction) {
    match action
    case FetchAction => Fetches(s, s', p)
    case HandleAction(eventId, now, acked) => Handles(s, s', p, eventId, now, acked)
    case GiveUpAction => GivesUp(s, s', p)
    case RecordAction(now) => Records(s, s', p, now)
    case PublishDeadAction(now) => PublishesDead(s, s', p, now)
    case MoveFailsAction => MoveFails(s, s', p)
    case CommitAction => Commits(s, s', p)
    case CommitFailsAction => CommitFails(s, s', p)
    case RestartAction => Restarts(s, s', p)
  }

  predicate StrayNext(s: State, s': State, action: StrayAction) {
    match action
    case StrayHandleAction(p, offset, eventId, now) => StrayHandles(s, s', p, offset, eventId, now)
    case StrayRecordAction(p, offset, now) => StrayRecords(s, s', p, offset, now)
    case StrayMarkAction(source, now) => StrayMarks(s, s', source, now)
  }

  predicate OperatorNext(c: Config, s: State, s': State, op: Id, action: OperatorAction) {
    match action
    case LookupAction(source, now) => Looks(c, s, s', op, source, now)
    case CheckAction => Checks(s, s', op)
    case StartAction(attempt, now) => Starts(s, s', op, attempt, now)
    case SendAction(partition) => Sends(s, s', op, partition)
    case SendFailsAction(partition, appended) => SendFails(s, s', op, partition, appended)
    case FinishAction => Finishes(s, s', op)
    case OperatorStopAction => s' == SetOperator(s, op, OpIdle)
  }

  predicate MaintenanceNext(c: Config, s: State, s': State, action: MaintenanceAction) {
    match action
    case RequeueAction(e, now) => Requeues(s, s', e, now)
    case PruneAction(now, busy, victims) => Prunes(c, s, s', now, busy, victims)
  }

  predicate Next(c: Config, s: State, s': State, step: Step) {
    match step
    case RequestStep(action) => RequestNext(s, s', action)
    case PublisherStep(pub, action) => PublisherNext(c, s, s', pub, action)
    case SessionStep(p, action) => SessionNext(s, s', p, action)
    case StrayStep(action) => StrayNext(s, s', action)
    case OperatorStep(op, action) => OperatorNext(c, s, s', op, action)
    case MaintenanceStep(action) => MaintenanceNext(c, s, s', action)
  }

  /** A run: states and the steps between them, from the empty system. */
  datatype Run = Run(states: seq<State>, steps: seq<Step>)

  predicate StepAt(c: Config, run: Run, i: nat)
    requires |run.states| == |run.steps| + 1 && i < |run.steps|
  {
    Next(c, run.states[i], run.states[i + 1], run.steps[i])
  }

  predicate IsRun(c: Config, run: Run) {
    && |run.states| == |run.steps| + 1
    && run.states[0] == INITIAL
    && forall i {:trigger StepAt(c, run, i)} :: 0 <= i < |run.steps| ==> StepAt(c, run, i)
  }

  /** The clock a handler reads, if the step runs one. */
  function HandlerClock(step: Step): Option<int> {
    match step
    case SessionStep(_, HandleAction(_, now, _)) => Some(now)
    case StrayStep(StrayHandleAction(_, _, _, now)) => Some(now)
    case _ => None
  }
}
