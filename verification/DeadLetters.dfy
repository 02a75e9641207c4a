/**
  Dead letters, their replay (internal/postgres/deadletter.go,
  internal/operations/service.go) and inbox retention
  (internal/postgres/maintenance.go, internal/maintenance/processed_events.go).
 */
module DeadLetters {
  import opened Domain
  import opened Tables
  import opened Messages
  import opened Ordering

  const MINUTE := 60_000
  const STALE_REPLAY := 5 * MINUTE
  const DAY := 24 * 60 * MINUTE

  /** Inserts the record, or refreshes the failure of the row already stored for this source. */
  function Upsert(db: Db, record: DeadLetter): Db {
    var row := if record.source in db.deadLetters
               then db.deadLetters[record.source].(lastFailedAt := record.lastFailedAt)
               else record;
    db.(deadLetters := db.deadLetters[record.source := row])
  }

  function MarkDeadLetterPublished(db: Db, source: Source, now: int): Result<(Db, ())> {
    if source !in db.deadLetters then Err(NotFound)
    else
      var row := db.deadLetters[source];
      var at := if row.kafkaPublishedAt.Some? then row.kafkaPublishedAt else Some(now);
      Ok((db.(deadLetters := db.deadLetters[source := row.(kafkaPublishedAt := at)]), ()))
  }

  /** The database after one source fails again and again. */
  function AfterUpserts(db: Db, records: seq<DeadLetter>): Db {
    if records == [] then db else Upsert(AfterUpserts(db, records[..|records| - 1]), records[|records| - 1])
  }

  /** Repeated failures of one message keep the first record, with its first failure, and move only the last failure time. */
  lemma {:induction false} FirstRecordStays(db: Db, source: Source, records: seq<DeadLetter>)
    requires records != [] && forall i :: 0 <= i < |records| ==> records[i].source == source
    ensures var first := if source in db.deadLetters then db.deadLetters[source] else records[0];
            AfterUpserts(db, records) ==
            db.(deadLetters := db.deadLetters[source := first.(lastFailedAt := records[|records| - 1].lastFailedAt)])
  {
    if |records| > 1 {
      FirstRecordStays(db, source, records[..|records| - 1]);
    } else {
      assert AfterUpserts(db, records[..0]) == db;
    }
  }

  function AfterMarks(db: Db, source: Source, times: seq<int>): Db {
    if times == [] then db
    else
      var before := AfterMarks(db, source, times[..|times| - 1]);
      After(before, MarkDeadLetterPublished(before, source, times[|times| - 1]))
  }

  /** Of any number of publication marks the first one counts, and nothing else changes. */
  lemma {:induction false} FirstMarkStays(db: Db, source: Source, times: seq<int>)
    requires source in db.deadLetters && times != []
    ensures var row := db.deadLetters[source];
            AfterMarks(db, source, times) ==
            db.(deadLetters := db.deadLetters[source :=
                  row.(kafkaPublishedAt := if row.kafkaPublishedAt.Some? then row.kafkaPublishedAt else Some(times[0]))])
  {
    if |times| > 1 {
      FirstMarkStays(db, source, times[..|times| - 1]);
    } else {
      assert AfterMarks(db, source, times[..0]) == db;
    }
  }

  /** Fails the pending attempts on a source that are older than five minutes. */
  function RecoverStale(attempts: map<Id, Attempt>, source: Source, now: int): map<Id, Attempt> {
    map a | a in attempts ::
      if attempts[a].deadLetter == source && attempts[a].result == AttemptPending && attempts[a].createdAt < now - STALE_REPLAY
      then attempts[a].(result := AttemptFailed) else attempts[a]
  }

  predicate HasPending(attempts: map<Id, Attempt>, source: Source) {
    exists a :: a in attempts && attempts[a].deadLetter == source && attempts[a].result == AttemptPending
  }

  function StartReplay(db: Db, source: Source, attempt: Id, now: int): Result<(Db, ())> {
    var recovered := RecoverStale(db.attempts, source, now);
    if source !in db.deadLetters || db.deadLetters[source].state != Open
       || attempt in recovered || HasPending(recovered, source) then Err(InvalidState)
    else Ok((db.(attempts := recovered[attempt := Attempt(source, AttemptPending, now)]), ()))
  }

  function FinishReplay(db: Db, attempt: Id, source: Source, published: bool): Result<(Db, ())> {
    if attempt !in db.attempts || db.attempts[attempt].result != AttemptPending then Err(NoPendingAttempt)
    else
      var result := if published then AttemptPublished else AttemptFailed;
      var finished := db.(attempts := db.attempts[attempt := db.attempts[attempt].(result := result)]);
      if !published then Ok((finished, ()))
      else if source !in db.deadLetters || db.deadLetters[source].state != Open then Err(InvalidState)
      else
        var row := db.deadLetters[source];
        Ok((finished.(deadLetters := db.deadLetters[source := row.(state := Republished, replayCount := row.replayCount + 1)],
                      actions := db.actions + [ReplayAudit(source)]), ()))
  }

  /** The checks of `ReplayDeadLetter` on the row it has read. */
  function CheckReplay(row: DeadLetter, window: int, now: int): Result<()> {
    if row.state != Open then Err(InvalidState)
    else if row.firstFailedAt < now - window then Err(ReplayWindowExpired)
    else Ok(())
  }

  predicate EventProcessed(db: Db, eventId: Id) {
    exists k :: k in db.processed && k.1 == eventId
  }

  // ----- retention -----

  datatype Retention = Retention(keep: int, batch: nat)

  /** NewProcessedEventsService: defaults, clamps and the safety check. Zero or less means "not set". */
  function RetentionSettings(keep: int, window: int, batch: int): (r: Result<Retention>)
    ensures r.Ok? ==> r.value.keep >= ReplayWindow(window) && 1 <= r.value.batch <= 10_000
    ensures r.Ok? && keep > 0 ==> r.value.keep == keep
  {
    var keep' := if keep <= 0 then 30 * DAY else keep;
    if keep' < ReplayWindow(window) then Err(InvalidRequest)
    else Ok(Retention(keep', if batch <= 0 then 1_000 else if batch > 10_000 then 10_000 else batch))
  }

  function ReplayWindow(window: int): (r: int)
    ensures r > 0
  {
    if window <= 0 then 14 * DAY else window
  }

  /** A dead letter that forbids pruning the inbox rows of its event. */
  predicate Guards(dead: DeadLetter, eventId: Id, cutoff: int) {
    dead.eventId == Some(eventId) && (dead.state == Open || dead.firstFailedAt >= cutoff)
  }

  /**
    The guard of an OPEN record protects the inbox row of its message if and only if
    the message carries an event_id header.
   */
  lemma GuardNeedsHeader(source: Source, m: Message, now: int, cutoff: int)
    requires EventId(m).Ok?
    ensures Guards(RecordFromMessage(source, m, now), EventId(m).value, cutoff)
            <==> exists i :: 0 <= i < |m.headers| && m.headers[i].key == EVENT_ID
  {
    RecordNamesIdentity(source, m, now);
  }

  predicate Prunable(db: Db, k: InboxKey, cutoff: int) {
    k in db.processed && db.processed[k].lastSeen < cutoff
    && !exists source :: source in db.deadLetters && Guards(db.deadLetters[source], k.1, cutoff)
  }

  /** The row last seen first is pruned first; ties go by consumer, then by event. */
  predicate PruneBefore(db: Db, a: InboxKey, b: InboxKey)
    requires a in db.processed && b in db.processed
  {
    var (x, y) := (db.processed[a].lastSeen, db.processed[b].lastSeen);
    // "ledger-service" sorts before "risk-service"
    x < y || (x == y && a.0.LedgerService? && b.0.RiskService?) || (x == y && a.0 == b.0 && TextLess(a.1, b.1))
  }

  lemma PruneTotal(db: Db, a: InboxKey, b: InboxKey)
    requires a in db.processed && b in db.processed && a != b
    ensures PruneBefore(db, a, b) || PruneBefore(db, b, a)
  {
    TextTotal(a.1, b.1);
  }

  lemma PruneTransitive(db: Db, a: InboxKey, b: InboxKey, c: InboxKey)
    requires a in db.processed && b in db.processed && c in db.processed
    requires PruneBefore(db, a, b) && PruneBefore(db, b, c)
    ensures PruneBefore(db, a, c)
  {
    if TextLess(a.1, b.1) && TextLess(b.1, c.1) {
      TextTransitive(a.1, b.1, c.1);
    }
  }

  /** Some row of a non-empty set is pruned before all the others. */
  lemma {:induction false} FirstPruned(db: Db, keys: set<InboxKey>) returns (first: InboxKey)
    requires keys != {} && keys <= db.processed.Keys
    ensures first in keys && forall k :: k in keys && k != first ==> PruneBefore(db, first, k)
  {
    var x :| x in keys;
    if keys == {x} {
      first := x;
    } else {
      var y := FirstPruned(db, keys - {x});
      PruneTotal(db, x, y);
      first := if PruneBefore(db, x, y) then x else y;
      forall k | k in keys && k != first ensures PruneBefore(db, first, k) {
        if first == x && k != y {
          PruneTransitive(db, x, y, k);
        }
      }
    }
  }

  /** The batch that one prune deletes: the oldest candidates that no other session holds. */
  predicate IsPruneBatch(db: Db, cutoff: int, batch: nat, locked: set<InboxKey>, victims: set<InboxKey>) {
    && |victims| <= batch
    && (forall k :: k in victims ==> k !in locked && Prunable(db, k, cutoff))
    && (forall k :: k in db.processed && Prunable(db, k, cutoff) && k !in locked && k !in victims ==>
          |victims| == batch && forall v :: v in victims ==> PruneBefore(db, v, k))
  }

  function Prune(db: Db, cutoff: int, victims: set<InboxKey>): Db {
    db.(processed := db.processed - victims, actions := db.actions + [PruneAudit(cutoff)])
  }
}
