/**
  The consumer loop (internal/consumer/loop.go). What the reader, the handler, the
  dead-letter store and the context will do with each message is an input; offsets of
  one partition arrive in rising order within a reader session.
 */
module ConsumerLoop {
  import opened Domain

  /** What happens around one fetch. */
  datatype Arrival =
    | FetchFailed(stopped: bool)          // stopped: the context is done
    | Fetched(
        partition: nat,
        offset: nat,
        failures: nat,                    // so many handler calls fail before one succeeds
        interrupted: Option<nat>,         // the context is done in the wait after this attempt
        moved: bool,                      // dead-lettering would succeed
        committed: bool)                  // the offset commit would succeed

  datatype Config = Config(maxAttempts: int, baseDelay: int)

  function Attempts(maxAttempts: int): (n: nat)
    ensures n > 0 && (maxAttempts > 0 ==> n == maxAttempts)
  {
    if maxAttempts <= 0 then 3 else maxAttempts
  }

  /** The attempts a message can have: a wait of positive length may end them early. */
  function Tries(max: nat, baseDelay: int, a: Arrival): nat
    requires a.Fetched?
  {
    if baseDelay > 0 && a.interrupted.Some? && 1 <= a.interrupted.value <= max then a.interrupted.value else max
  }

  predicate Handled(c: Config, a: Arrival) {
    a.Fetched? && a.failures < Tries(Attempts(c.maxAttempts), c.baseDelay, a)
  }

  /** Handled, or durably dead-lettered. */
  predicate Resolved(c: Config, a: Arrival) {
    a.Fetched? && (Handled(c, a) || a.moved)
  }

  predicate Commits(c: Config, a: Arrival) {
    Resolved(c, a) && a.committed
  }

  /** Calls the handler until it succeeds, the attempts run out, or the context is done in a wait. */
  method Retry(max: int, baseDelay: int, a: Arrival) returns (ok: bool, calls: nat)
    requires a.Fetched?
    ensures max <= 0 ==> ok && calls == 0
    ensures max > 0 ==> (ok <==> a.failures < Tries(max, baseDelay, a))
    ensures max > 0 ==> calls == if ok then a.failures + 1 else Tries(max, baseDelay, a)
  {
    ok, calls := true, 0;
    var attempt := 1;
    while attempt <= max
      invariant 1 <= attempt && calls == attempt - 1 && (max > 0 ==> attempt <= max + 1)
      invariant max > 0 ==> calls <= a.failures && calls <= Tries(max, baseDelay, a)
      invariant max > 0 && baseDelay > 0 && a.interrupted.Some? && 1 <= a.interrupted.value <= max ==> calls < a.interrupted.value
      invariant max <= 0 ==> attempt == 1
      invariant calls > 0 ==> !ok
      invariant calls == 0 ==> ok
    {
      calls := calls + 1;
      ok := a.failures < calls;
      if ok {
        return;
      }
      var delay := attempt * baseDelay;
      DelayIsPositive(attempt, baseDelay);
      if delay > 0 && a.interrupted == Some(attempt) {
        return;
      }
      attempt := attempt + 1;
    }
  }

  lemma DelayIsPositive(attempt: int, baseDelay: int)
    requires attempt > 0
    ensures attempt * baseDelay > 0 <==> baseDelay > 0
  {
  }

  // ----- offsets -----

  predicate SamePartition(a: Arrival, b: Arrival) {
    a.Fetched? && b.Fetched? && a.partition == b.partition
  }

  ghost predicate InSequence(arrivals: seq<Arrival>) {
    forall i, j :: 0 <= i < j < |arrivals| && SamePartition(arrivals[i], arrivals[j]) ==> arrivals[i].offset < arrivals[j].offset
  }

  /** The committed offset of each partition is one past its last committed message. */
  ghost predicate Watermarks(c: Config, arrivals: seq<Arrival>, offsets: map<nat, nat>) {
    && (forall i :: 0 <= i < |arrivals| && Commits(c, arrivals[i]) ==>
          arrivals[i].partition in offsets && arrivals[i].offset < offsets[arrivals[i].partition])
    && (forall p :: p in offsets ==>
          exists i :: 0 <= i < |arrivals| && Commits(c, arrivals[i]) && arrivals[i].partition == p && arrivals[i].offset + 1 == offsets[p])
  }

  predicate Below(a: Arrival, offsets: map<nat, nat>) {
    a.Fetched? && a.partition in offsets && a.offset < offsets[a.partition]
  }

  /** No message below a committed offset is left neither handled nor dead-lettered. */
  ghost predicate NothingSkipped(c: Config, arrivals: seq<Arrival>, offsets: map<nat, nat>) {
    forall i :: 0 <= i < |arrivals| && Below(arrivals[i], offsets) ==> Resolved(c, arrivals[i])
  }

  /** A message whose dead-lettering failed is followed by a commit in its partition. */
  predicate Overtaken(c: Config, a: Arrival, later: Arrival) {
    SamePartition(a, later) && !Resolved(c, a) && Commits(c, later)
  }

  ghost predicate CommitsPastFailure(c: Config, arrivals: seq<Arrival>) {
    exists i, j :: 0 <= i < j < |arrivals| && Overtaken(c, arrivals[i], arrivals[j])
  }

  /** The loop never loses a message, except exactly when a failed dead-lettering is overtaken by a commit. */
  lemma SkipsExactlyWhenOvertaken(c: Config, arrivals: seq<Arrival>, offsets: map<nat, nat>)
    requires InSequence(arrivals) && Watermarks(c, arrivals, offsets)
    ensures NothingSkipped(c, arrivals, offsets) <==> !CommitsPastFailure(c, arrivals)
  {
  }

  /** Runs until the context is done or the input ends, whichever comes first. */
  method RunLoop(c: Config, arrivals: seq<Arrival>) returns (taken: nat, offsets: map<nat, nat>, calls: nat)
    requires InSequence(arrivals)
    ensures taken <= |arrivals| && forall i :: 0 <= i < taken ==> arrivals[i] != FetchFailed(true)
    ensures taken < |arrivals| ==> arrivals[taken] == FetchFailed(true)
    ensures Watermarks(c, arrivals[..taken], offsets)
    ensures NothingSkipped(c, arrivals[..taken], offsets) <==> !CommitsPastFailure(c, arrivals[..taken])
    ensures calls <= taken * Attempts(c.maxAttempts)
  {
    var max := Attempts(c.maxAttempts);
    taken, offsets, calls := 0, map[], 0;
    while taken < |arrivals|
      invariant taken <= |arrivals| && forall i :: 0 <= i < taken ==> arrivals[i] != FetchFailed(true)
      invariant Watermarks(c, arrivals[..taken], offsets)
      invariant calls <= taken * max
    {
      var message := arrivals[taken];
      if message == FetchFailed(true) {
        break;
      }
      ghost var before := offsets;
      if message.Fetched? {
        var ok, tried := Retry(max, c.baseDelay, message);
        calls := calls + tried;
        if (ok || message.moved) && message.committed {
          offsets := offsets[message.partition := message.offset + 1];
        }
      }
      WatermarksStep(c, arrivals, taken, before, offsets);
      assert (taken + 1) * max == taken * max + max;
      taken := taken + 1;
    }
    assert InSequence(arrivals[..taken]);
    SkipsExactlyWhenOvertaken(c, arrivals[..taken], offsets);
  }

  lemma WatermarksStep(c: Config, arrivals: seq<Arrival>, n: nat, before: map<nat, nat>, offsets: map<nat, nat>)
    requires n < |arrivals| && InSequence(arrivals) && Watermarks(c, arrivals[..n], before)
    requires offsets == if Commits(c, arrivals[n]) then before[arrivals[n].partition := arrivals[n].offset + 1] else before
    ensures Watermarks(c, arrivals[..n + 1], offsets)
  {
    var all := arrivals[..n + 1];
    forall i | 0 <= i < |all| && Commits(c, all[i]) ensures all[i].partition in offsets && all[i].offset < offsets[all[i].partition] {
      CommittedBelow(c, arrivals, n, before, offsets, i);
    }
    forall p | p in offsets
      ensures exists i :: 0 <= i < |all| && Commits(c, all[i]) && all[i].partition == p && all[i].offset + 1 == offsets[p]
    {
      var i := CommittedLast(c, arrivals, n, before, offsets, p);
      assert all[i] == arrivals[i];
    }
  }

  lemma CommittedBelow(c: Config, arrivals: seq<Arrival>, n: nat, before: map<nat, nat>, offsets: map<nat, nat>, i: nat)
    requires i <= n < |arrivals| && InSequence(arrivals) && Watermarks(c, arrivals[..n], before) && Commits(c, arrivals[i])
    requires offsets == if Commits(c, arrivals[n]) then before[arrivals[n].partition := arrivals[n].offset + 1] else before
    ensures arrivals[i].partition in offsets && arrivals[i].offset < offsets[arrivals[i].partition]
  {
    if i < n {
      assert arrivals[..n][i] == arrivals[i];
      if Commits(c, arrivals[n]) && arrivals[n].partition == arrivals[i].partition {
        assert SamePartition(arrivals[i], arrivals[n]);
      }
    }
  }

  lemma CommittedLast(c: Config, arrivals: seq<Arrival>, n: nat, before: map<nat, nat>, offsets: map<nat, nat>, p: nat) returns (i: nat)
    requires n < |arrivals| && Watermarks(c, arrivals[..n], before) && p in offsets
    requires offsets == if Commits(c, arrivals[n]) then before[arrivals[n].partition := arrivals[n].offset + 1] else before
    ensures i <= n && Commits(c, arrivals[i]) && arrivals[i].partition == p && arrivals[i].offset + 1 == offsets[p]
  {
    if Commits(c, arrivals[n]) && p == arrivals[n].partition {
      i := n;
    } else {
      var front := arrivals[..n];
      var j :| 0 <= j < |front| && Commits(c, front[j]) && front[j].partition == p && front[j].offset + 1 == before[p];
      i := j;
    }
  }

  /** A run in which one failed dead-lettering loses a message. */
  lemma OvertakenRun()
    ensures var c := Config(1, 0);
            var arrivals := [Fetched(0, 0, 1, None, false, true), Fetched(0, 1, 0, None, true, true)];
            InSequence(arrivals) && Watermarks(c, arrivals, map[0 := 2]) && !NothingSkipped(c, arrivals, map[0 := 2])
  {
    var c := Config(1, 0);
    var arrivals := [Fetched(0, 0, 1, None, false, true), Fetched(0, 1, 0, None, true, true)];
    assert Commits(c, arrivals[1]) && !Resolved(c, arrivals[0]) && Below(arrivals[0], map[0 := 2]);
  }
}
