/**
  The outbox publisher (internal/outbox/publisher.go) over the store's lease
  operations and a broker that may refuse, accept, or accept and still report failure.
 */
module Publishing {
  import opened Domain
  import opened Tables
  import opened Ordering
  import opened Outbox
  import opened Database
  import opened MoneyLemmas

  /** The topics, as the order in which event ids were accepted. */
  class Broker {
    var log: seq<Id>

    constructor ()
      ensures log == []
    {
      log := [];
    }

    method Publish(row: OutboxRow) returns (acked: bool)
      modifies this
      ensures acked ==> log == old(log) + [row.id]
      ensures !acked ==> log == old(log) || log == old(log) + [row.id]
    {
      var accepted: bool := *;
      if accepted {
        log := log + [row.id];
      }
      var reported: bool := *;
      acked := accepted && reported;
    }
  }

  predicate Keyed(outbox: map<Id, OutboxRow>) {
    forall e :: e in outbox ==> outbox[e].id == e
  }

  predicate Unfinished(row: OutboxRow) {
    row.status == OutboxPending || row.status == OutboxProcessing
  }

  /** What one call of PublishNext may leave. */
  ghost predicate Attempted(outbox: map<Id, OutboxRow>, outbox': map<Id, OutboxRow>, log: seq<Id>, log': seq<Id>,
                            max: int, now: int, done: int, found: bool, r: Result<()>)
  {
    if !found then
      outbox' == outbox && log' == log && (r.Ok? ==> NoneClaimable(outbox, now, {})) && (r.Err? ==> r.error == Unavailable)
    else exists e :: PublishedOne(outbox, outbox', log, log', e, max, now, done, r)
  }

  ghost predicate PublishedOne(outbox: map<Id, OutboxRow>, outbox': map<Id, OutboxRow>, log: seq<Id>, log': seq<Id>,
                               e: Id, max: int, now: int, done: int, r: Result<()>)
  {
    && IsNext(outbox, now, {}, e)
    && var claimed := Claimed(outbox, e, now);
       match r
       case Ok(_) => log' == log + [e] && outbox' == MarkPublished(claimed, e, done)
       case Err(PublishFailed) => (log' == log || log' == log + [e]) && outbox' == MarkFailed(claimed, e, max, done)
       case Err(Unavailable) => (log' == log || log' == log + [e]) && outbox' == claimed
       case _ => false
  }

  // ----- progress and order -----

  /** How many failed attempts a row can still take. */
  function Budget(outbox: map<Id, OutboxRow>, max: int): Id -> int {
    (e: Id) => if e in outbox && Unfinished(outbox[e]) then max - outbox[e].attempts else 0
  }

  ghost function Remaining(outbox: map<Id, OutboxRow>, max: int): int {
    Total(outbox.Keys, Budget(outbox, max))
  }

  ghost predicate AttemptsFit(outbox: map<Id, OutboxRow>, max: int) {
    forall e :: e in outbox ==> AttemptsOk(outbox[e], max)
  }

  /** No row is in another publisher's hands. */
  ghost predicate Settled(outbox: map<Id, OutboxRow>) {
    forall e :: e in outbox ==> outbox[e].status != OutboxProcessing
  }

  ghost predicate Finished(outbox: map<Id, OutboxRow>) {
    forall e :: e in outbox ==> !Unfinished(outbox[e])
  }

  predicate Older(outbox: map<Id, OutboxRow>, x: Id, e: Id) {
    x in outbox && e in outbox && Before(StampOf(outbox[x]), StampOf(outbox[e]))
  }

  /** No event was accepted before an older one, unless the older one was parked as undeliverable. */
  ghost predicate InOrder(outbox: map<Id, OutboxRow>, log: seq<Id>) {
    && (forall j, x :: 0 <= j < |log| && Older(outbox, x, log[j]) ==> x in log[..j] || outbox[x].status == OutboxDeadLettered)
    && (forall x :: x in outbox && outbox[x].status == OutboxPublished ==> x in log)
  }

  lemma RemainingNonNegative(outbox: map<Id, OutboxRow>, max: int)
    requires AttemptsFit(outbox, max)
    ensures Remaining(outbox, max) >= 0
  {
    TotalNonNegative(outbox.Keys, Budget(outbox, max));
  }

  /** Rewriting one row so that less of its budget is left. */
  lemma RowSpends(outbox: map<Id, OutboxRow>, e: Id, row: OutboxRow, max: int)
    requires e in outbox
    requires Budget(outbox[e := row], max)(e) < Budget(outbox, max)(e)
    ensures Remaining(outbox[e := row], max) < Remaining(outbox, max)
  {
    var after := outbox[e := row];
    assert after.Keys == outbox.Keys;
    TotalSplit(outbox.Keys, e, Budget(outbox, max));
    TotalSplit(outbox.Keys, e, Budget(after, max));
    TotalSame(outbox.Keys - {e}, Budget(outbox, max), Budget(after, max));
  }

  /** The row that an attempt leaves. */
  function AttemptedRow(row: OutboxRow, max: int, done: int, published: bool): OutboxRow {
    if published then row.(status := OutboxPublished, updatedAt := done) else FailedRow(row, max, done)
  }

  lemma AttemptSpends(outbox: map<Id, OutboxRow>, outbox': map<Id, OutboxRow>, log: seq<Id>, log': seq<Id>,
                      e: Id, max: int, now: int, done: int, r: Result<()>)
    requires AttemptsFit(outbox, max) && r != Err(Unavailable)
    requires PublishedOne(outbox, outbox', log, log', e, max, now, done, r)
    ensures outbox' == outbox[e := AttemptedRow(outbox[e], max, done, r.Ok?)]
    ensures AttemptsFit(outbox', max) && 0 <= Remaining(outbox', max) < Remaining(outbox, max)
  {
    assert AttemptsOk(outbox[e], max);
    var row := AttemptedRow(outbox[e], max, done, r.Ok?);
    assert outbox' == outbox[e := row];
    RowSpends(outbox, e, row, max);
    RemainingNonNegative(outbox', max);
  }

  /** When no row is in flight, the row that is tried is the oldest unfinished one. */
  lemma AttemptInOrder(outbox: map<Id, OutboxRow>, log: seq<Id>, e: Id, row: OutboxRow, now: int)
    requires Keyed(outbox) && Settled(outbox) && InOrder(outbox, log) && IsNext(outbox, now, {}, e)
    requires row.id == e && row.createdAt == outbox[e].createdAt && row.status != OutboxProcessing
    ensures row.status != OutboxPublished ==> InOrder(outbox[e := row], log)
    ensures InOrder(outbox[e := row], log + [e])
    ensures Settled(outbox[e := row])
  {
    var after, accepted := outbox[e := row], log + [e];
    assert accepted[..|log|] == log;
    forall j, x | 0 <= j < |accepted| && Older(after, x, accepted[j])
      ensures x in accepted[..j] || after[x].status == OutboxDeadLettered
    {
      assert Older(outbox, x, accepted[j]);
      if j == |log| {
        OlderIsFinished(outbox, log, x, e, now);
      } else {
        assert accepted[..j] == log[..j];
        if x == e && outbox[e].status == OutboxPending {
          assert x in log[..j];
        }
      }
    }
    forall j, x | 0 <= j < |log| && Older(after, x, log[j])
      ensures x in log[..j] || after[x].status == OutboxDeadLettered
    {
      assert Older(outbox, x, log[j]);
    }
    forall x | x in after && after[x].status == OutboxPublished ensures x in accepted {
      if x != e {
        assert x in log;
      } else {
        assert accepted[|log|] == e;
      }
    }
  }

  lemma OlderIsFinished(outbox: map<Id, OutboxRow>, log: seq<Id>, x: Id, e: Id, now: int)
    requires Keyed(outbox) && Settled(outbox) && InOrder(outbox, log) && IsNext(outbox, now, {}, e) && Older(outbox, x, e)
    ensures x != e && (x in log || outbox[x].status == OutboxDeadLettered)
  {
    BeforeTotal(StampOf(outbox[e]), StampOf(outbox[x]));
  }

  /** What holds of the outbox and the topics whenever the only publisher is idle. */
  ghost predicate SoundTables(outbox: map<Id, OutboxRow>, log: seq<Id>, max: int) {
    Keyed(outbox) && AttemptsFit(outbox, max) && Settled(outbox) && InOrder(outbox, log)
  }

  lemma AttemptKeeps(outbox: map<Id, OutboxRow>, outbox': map<Id, OutboxRow>, log: seq<Id>, log': seq<Id>,
                     max: int, now: int, done: int, r: Result<()>)
    requires SoundTables(outbox, log, max) && r != Err(Unavailable)
    requires Attempted(outbox, outbox', log, log', max, now, done, true, r)
    ensures SoundTables(outbox', log', max) && outbox'.Keys == outbox.Keys
    ensures 0 <= Remaining(outbox', max) < Remaining(outbox, max)
  {
    var e :| PublishedOne(outbox, outbox', log, log', e, max, now, done, r);
    AttemptSpends(outbox, outbox', log, log', e, max, now, done, r);
    AttemptInOrder(outbox, log, e, outbox'[e], now);
  }

  lemma NothingLeft(outbox: map<Id, OutboxRow>, now: int)
    requires Settled(outbox) && NoneClaimable(outbox, now, {})
    ensures Finished(outbox)
  {
  }

  class Publisher {
    const store: Store
    const broker: Broker
    const maxAttempts: int
    /** Whether every statement reaches the database. */
    const reliable: bool

    constructor (store: Store, broker: Broker, maxAttempts: int, reliable: bool)
      ensures this.store == store && this.broker == broker && this.reliable == reliable
      ensures this.maxAttempts == if maxAttempts <= 0 then 3 else maxAttempts
    {
      this.store, this.broker, this.reliable := store, broker, reliable;
      this.maxAttempts := if maxAttempts <= 0 then 3 else maxAttempts;
    }

    method Fails() returns (fails: bool)
      ensures reliable ==> !fails
    {
      fails := *;
      fails := fails && !reliable;
    }

    method PublishNext(now: int, done: int) returns (found: bool, r: Result<()>)
      requires Keyed(store.outbox)
      modifies store`outbox, broker
      ensures Keyed(store.outbox)
      ensures Attempted(old(store.outbox), store.outbox, old(broker.log), broker.log, maxAttempts, now, done, found, r)
      ensures reliable ==> r != Err(Unavailable)
    {
      var down := Fails();
      if down {
        return false, Err(Unavailable);
      }
      var next := store.NextPending(now, {});
      if next.None? {
        return false, Ok(());
      }
      var acked := broker.Publish(next.value);
      down := Fails();
      if down {
        assert PublishedOne(old(store.outbox), store.outbox, old(broker.log), broker.log, next.value.id, maxAttempts, now, done, Err(Unavailable));
        return true, Err(Unavailable);
      }
      if !acked {
        store.MarkFailedAttempt(next.value.id, maxAttempts, done);
        assert PublishedOne(old(store.outbox), store.outbox, old(broker.log), broker.log, next.value.id, maxAttempts, now, done, Err(PublishFailed));
        return true, Err(PublishFailed);
      }
      store.MarkPublished(next.value.id, done);
      assert PublishedOne(old(store.outbox), store.outbox, old(broker.log), broker.log, next.value.id, maxAttempts, now, done, Ok(()));
      return true, Ok(());
    }

    ghost predicate Sound()
      reads store, broker
    {
      SoundTables(store.outbox, broker.log, maxAttempts)
    }

    ghost function Left(): int
      reads store
    {
      Remaining(store.outbox, maxAttempts)
    }

    /** Publishes until nothing is claimable or an attempt fails. */
    method PublishAvailable() returns (r: Result<()>)
      requires reliable && Sound()
      modifies store`outbox, broker
      ensures Sound() && store.outbox.Keys == old(store.outbox.Keys)
      ensures r.Ok? ==> Finished(store.outbox) && Left() <= old(Left())
      ensures r.Err? ==> Left() < old(Left())
    {
      RemainingNonNegative(store.outbox, maxAttempts);
      while true
        invariant Sound() && store.outbox.Keys == old(store.outbox.Keys)
        invariant 0 <= Left() <= old(Left())
        decreases Left()
      {
        var now: int, done: int := *, *;
        ghost var outbox, log := store.outbox, broker.log;
        var found, published := PublishNext(now, done);
        if found {
          AttemptKeeps(outbox, store.outbox, log, broker.log, maxAttempts, now, done, published);
        }
        if published.Err? {
          return published;
        }
        if !found {
          NothingLeft(store.outbox, now);
          return Ok(());
        }
      }
    }

    /** The polling loop of the service: in the end every event is delivered or parked, in order. */
    method Drain()
      requires reliable && Sound()
      modifies store`outbox, broker
      ensures Sound() && Finished(store.outbox) && store.outbox.Keys == old(store.outbox.Keys)
    {
      var polled: Result<()> := Err(PublishFailed);
      while polled.Err?
        invariant Sound() && store.outbox.Keys == old(store.outbox.Keys)
        invariant polled.Ok? ==> Finished(store.outbox)
        decreases polled.Err?, Left()
      {
        RemainingNonNegative(store.outbox, maxAttempts);
        polled := PublishAvailable();
      }
    }
  }
}
