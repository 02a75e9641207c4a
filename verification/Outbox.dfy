/** The lease state machine of one outbox row (internal/postgres/outbox.go). */
module Outbox {
  import opened Domain
  import opened Tables
  import opened Ordering

  /** A claim older than five minutes may be taken over. Times are in milliseconds. */
  const LEASE := 300_000

  predicate Claimable(row: OutboxRow, now: int) {
    row.status == OutboxPending || (row.status == OutboxProcessing && row.updatedAt < now - LEASE)
  }

  function StampOf(row: OutboxRow): Stamp {
    Stamp(row.createdAt, row.id)
  }

  /** `e` is the oldest claimable row that no other session holds locked. */
  predicate IsNext(outbox: map<Id, OutboxRow>, now: int, locked: set<Id>, e: Id) {
    && e in outbox && e !in locked && Claimable(outbox[e], now)
    && forall x :: x in outbox && x !in locked && Claimable(outbox[x], now) && x != e ==>
         Before(StampOf(outbox[e]), StampOf(outbox[x]))
  }

  predicate NoneClaimable(outbox: map<Id, OutboxRow>, now: int, locked: set<Id>) {
    forall x :: x in outbox && x !in locked ==> !Claimable(outbox[x], now)
  }

  function Claimed(outbox: map<Id, OutboxRow>, e: Id, now: int): map<Id, OutboxRow>
    requires e in outbox
  {
    outbox[e := outbox[e].(status := OutboxProcessing, updatedAt := now)]
  }

  function MarkPublished(outbox: map<Id, OutboxRow>, e: Id, now: int): map<Id, OutboxRow> {
    if e in outbox && outbox[e].status == OutboxProcessing then
      outbox[e := outbox[e].(status := OutboxPublished, updatedAt := now)]
    else outbox
  }

  function FailedRow(row: OutboxRow, maxAttempts: int, now: int): OutboxRow {
    row.(attempts := row.attempts + 1,
         status := if row.attempts + 1 >= maxAttempts then OutboxDeadLettered else OutboxPending,
         updatedAt := now)
  }

  function MarkFailed(outbox: map<Id, OutboxRow>, e: Id, maxAttempts: int, now: int): map<Id, OutboxRow> {
    if e in outbox && outbox[e].status == OutboxProcessing then outbox[e := FailedRow(outbox[e], maxAttempts, now)]
    else outbox
  }

  function Requeue(db: Db, e: Id, now: int): Result<(Db, ())> {
    if e in db.outbox && db.outbox[e].status == OutboxDeadLettered then
      Ok((db.(outbox := db.outbox[e := db.outbox[e].(status := OutboxPending, attempts := 0, updatedAt := now)],
              actions := db.actions + [RequeueAudit(e)]), ()))
    else Err(InvalidState)
  }

  /** The attempt counter of every row, given the publishers' shared maximum. */
  predicate AttemptsOk(row: OutboxRow, maxAttempts: int) {
    match row.status
    case OutboxPending => 0 <= row.attempts < maxAttempts
    case OutboxProcessing => 0 <= row.attempts < maxAttempts
    case OutboxPublished => 0 <= row.attempts < maxAttempts
    case OutboxDeadLettered => row.attempts == maxAttempts
  }

  /** Row ids are keys, so the oldest claimable row is unique and exists when any row is claimable. */
  lemma NextExists(outbox: map<Id, OutboxRow>, now: int, locked: set<Id>) returns (e: Id)
    requires forall x :: x in outbox ==> outbox[x].id == x
    requires !NoneClaimable(outbox, now, locked)
    ensures IsNext(outbox, now, locked, e)
  {
    var stamps := set x | x in outbox && x !in locked && Claimable(outbox[x], now) :: StampOf(outbox[x]);
    var w :| w in outbox && w !in locked && Claimable(outbox[w], now);
    assert StampOf(outbox[w]) in stamps;
    var m := Earliest(stamps);
    e := m.id;
    forall x | x in outbox && x !in locked && Claimable(outbox[x], now) && x != e
      ensures Before(StampOf(outbox[e]), StampOf(outbox[x]))
    {
      assert StampOf(outbox[x]) in stamps;
    }
  }

  // ----- what a row goes through -----

  /** The row after some failed attempts: each a claim and a failure, at the given times. */
  function AfterFailures(row: OutboxRow, maxAttempts: int, times: seq<(int, int)>): OutboxRow {
    if times == [] then row
    else
      var tried := AfterFailures(row, maxAttempts, times[..|times| - 1]);
      var (claimed, failed) := times[|times| - 1];
      FailedRow(tried.(status := OutboxProcessing, updatedAt := claimed), maxAttempts, failed)
  }

  /** A pending row takes exactly as many failures as it has attempts left; the last one, and no earlier one, parks it. */
  lemma {:induction false} FailuresPark(row: OutboxRow, maxAttempts: int, times: seq<(int, int)>)
    requires row.status == OutboxPending && 0 <= row.attempts < maxAttempts && |times| <= maxAttempts - row.attempts
    ensures var r := AfterFailures(row, maxAttempts, times);
            && r.attempts == row.attempts + |times| && AttemptsOk(r, maxAttempts)
            && r.status == (if |times| == maxAttempts - row.attempts then OutboxDeadLettered else OutboxPending)
            && r == row.(status := r.status, attempts := r.attempts, updatedAt := r.updatedAt)
  {
    if times != [] {
      FailuresPark(row, maxAttempts, times[..|times| - 1]);
    }
  }

  /** A requeued event gets the full number of attempts again, whatever it went through before. */
  lemma RequeueStartsOver(db: Db, e: Id, now: int, maxAttempts: int, times: seq<(int, int)>)
    requires e in db.outbox && db.outbox[e].status == OutboxDeadLettered && 0 < maxAttempts && |times| <= maxAttempts
    ensures Requeue(db, e, now).Ok? && e in Requeue(db, e, now).value.0.outbox
    ensures var r := AfterFailures(Requeue(db, e, now).value.0.outbox[e], maxAttempts, times);
            r.attempts == |times| && r.status == (if |times| == maxAttempts then OutboxDeadLettered else OutboxPending)
  {
    FailuresPark(Requeue(db, e, now).value.0.outbox[e], maxAttempts, times);
  }

  /** The marks of a publisher that has lost its claim. */
  function LateMarks(outbox: map<Id, OutboxRow>, e: Id, maxAttempts: int, marks: seq<(bool, int)>): map<Id, OutboxRow> {
    if marks == [] then outbox
    else
      var (published, now) := marks[0];
      LateMarks(if published then MarkPublished(outbox, e, now) else MarkFailed(outbox, e, maxAttempts, now), e, maxAttempts, marks[1..])
  }

  /** However many marks a late holder sends: once the row is not PROCESSING they change nothing, and they never touch another row. */
  lemma {:induction false} LateMarksAreInert(outbox: map<Id, OutboxRow>, e: Id, maxAttempts: int, marks: seq<(bool, int)>, x: Id)
    requires x in outbox && (x != e || outbox[x].status != OutboxProcessing)
    ensures x in LateMarks(outbox, e, maxAttempts, marks) && LateMarks(outbox, e, maxAttempts, marks)[x] == outbox[x]
    decreases marks
  {
    if marks != [] {
      var (published, now) := marks[0];
      var next := if published then MarkPublished(outbox, e, now) else MarkFailed(outbox, e, maxAttempts, now);
      LateMarksAreInert(next, e, maxAttempts, marks[1..], x);
    }
  }
}
