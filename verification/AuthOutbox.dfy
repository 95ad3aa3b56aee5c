/** The auth outbox: workers lease an event, publish it without any lock, and finish it
    only if no later attempt has taken it over. Workers may crash at any point, act late
    and hold expired leases; times are milliseconds of the database clock. */
module AuthOutbox {
  import opened Ordering
  import opened InventoryModel

  datatype Row = Row(createdAt: Time, attempts: nat, nextAt: Time, publishedAt: Option<Time>)

  type Rows = map<Id, Row>

  // ----- retry delay --------------------------------------------------------

  function Doubled(n: nat): nat {
    if n == 0 then 1 else 2 * Doubled(n - 1)
  }

  function Min(a: int, b: int): int {
    if a < b then a else b
  }

  function Max(a: int, b: int): int {
    if a < b then b else a
  }

  /** Doubling seconds from the first attempt on, at most five minutes. */
  function RetryDelay(attempt: int): (ms: int)
    ensures 1000 <= ms <= 300000
  {
    var doublings := Min(Max(attempt - 1, 0), 9);
    DoubledGrows(0, doublings);
    Min(Doubled(doublings) * 1000, 300000)
  }

  lemma {:induction false} DoubledGrows(a: nat, b: nat)
    requires a <= b
    ensures 1 <= Doubled(a) <= Doubled(b)
    decreases b
  {
    if a < b {
      DoubledGrows(a, b - 1);
    } else if a > 0 {
      DoubledGrows(a - 1, b - 1);
    }
  }

  /** For all attempts the delay never shrinks, doubles up to the ninth and then stays. */
  lemma RetryDelayGrows(a: int, b: int)
    requires a <= b
    ensures RetryDelay(a) <= RetryDelay(b)
    ensures a <= 1 ==> RetryDelay(a) == 1000
    ensures 1 <= a < 9 ==> RetryDelay(a + 1) == 2 * RetryDelay(a)
    ensures a >= 10 ==> RetryDelay(a) == 300000
  {
    DoubledGrows(Min(Max(a - 1, 0), 9), Min(Max(b - 1, 0), 9));
    EightDoublings();
    if 1 <= a < 9 {
      DoubledGrows(a, 8);
    }
  }

  lemma EightDoublings()
    ensures Doubled(8) == 256 && Doubled(9) == 512
  {
  }

  // ----- the two statements -------------------------------------------------

  predicate Due(r: Row, t: Time) {
    r.publishedAt.None? && r.nextAt <= t
  }

  function DueRows(rows: Rows, t: Time): (ids: seq<Id>)
    ensures forall x :: x in ids <==> x in rows && Due(rows[x], t)
  {
    var due := set x | x in rows && Due(rows[x], t);
    OrderBy(due, map x | x in rows :: Rank(rows[x].nextAt, rows[x].createdAt))
  }

  /** In the order of the next attempt, then of creation, then of the id. */
  ghost predicate DueBefore(rows: Rows, x: Id, y: Id)
    requires x in rows && y in rows
  {
    rows[x].nextAt < rows[y].nextAt ||
    (rows[x].nextAt == rows[y].nextAt &&
      (rows[x].createdAt < rows[y].createdAt || (rows[x].createdAt == rows[y].createdAt && x < y)))
  }

  function Leased(r: Row, t: Time, timeout: nat): Row {
    r.(attempts := r.attempts + 1, nextAt := t + timeout + 10000)
  }

  function Closed(r: Row, attempt: nat, ok: bool, t: Time): Row {
    if r.attempts == attempt && r.publishedAt.None?
    then r.(publishedAt := if ok then Some(t) else None, nextAt := t + RetryDelay(attempt))
    else r
  }

  datatype Lease = Lease(id: Id, attempt: nat)

  class OutboxTable {
    var rows: Rows

    /** Leases the row that has been due the longest, if any, for the publishing timeout and
        ten seconds more; no other row changes. */
    method Claim(t: Time, timeout: nat) returns (lease: Option<Lease>)
      modifies this
      ensures lease.None? <==> forall x | x in old(rows) :: old(rows)[x].publishedAt.Some? || t < old(rows)[x].nextAt
      ensures lease.None? ==> rows == old(rows)
      ensures lease.Some? ==>
                var x := lease.value.id;
                x in old(rows) && old(rows)[x].publishedAt.None? && old(rows)[x].nextAt <= t &&
                lease.value.attempt == old(rows)[x].attempts + 1 &&
                rows == old(rows)[x := old(rows)[x].(attempts := old(rows)[x].attempts + 1, nextAt := t + timeout + 10000)] &&
                forall y | y in old(rows) && old(rows)[y].publishedAt.None? && old(rows)[y].nextAt <= t && y != x :: DueBefore(old(rows), x, y)
    {
      var due := DueRows(rows, t);
      assert forall x | x in rows :: x in due <==> Due(rows[x], t);
      if due == [] { return None; }
      var x := due[0];
      assert x in due;
      forall y | y in rows && Due(rows[y], t) && y != x ensures DueBefore(rows, x, y) {
        assert y in due;
      }
      rows := rows[x := Leased(rows[x], t, timeout)];
      return Some(Lease(x, rows[x].attempts));
    }

    /** Finishes the latest attempt of an unpublished row: published now if the broker
        confirmed it, otherwise due again after the retry delay. Any other lease was lost. */
    method Finish(lease: Lease, ok: bool, t: Time) returns (lost: bool)
      modifies this
      ensures lost <==> lease.id !in old(rows) || old(rows)[lease.id].attempts != lease.attempt || old(rows)[lease.id].publishedAt.Some?
      ensures lost ==> rows == old(rows)
      ensures !lost ==>
                lease.id in rows && rows == old(rows)[lease.id := rows[lease.id]] && rows[lease.id].attempts == lease.attempt &&
                rows[lease.id].createdAt == old(rows)[lease.id].createdAt &&
                rows[lease.id].publishedAt == (if ok then Some(t) else None) && rows[lease.id].nextAt == t + RetryDelay(lease.attempt)
      ensures rows == if lease.id in old(rows) then old(rows)[lease.id := Closed(old(rows)[lease.id], lease.attempt, ok, t)] else old(rows)
    {
      if lease.id in rows && rows[lease.id].attempts == lease.attempt && rows[lease.id].publishedAt.None? {
        var r := rows[lease.id];
        rows := rows[lease.id := r.(publishedAt := if ok then Some(t) else None, nextAt := t + RetryDelay(lease.attempt))];
        return false;
      }
      assert lease.id in rows ==> rows[lease.id := rows[lease.id]] == rows;
      return true;
    }
  }

  // ----- any number of workers ----------------------------------------------

  /** Where some worker has got to with its lease. Points are never removed, so a worker
      may act late, act again, or never act at all. */
  datatype Point = Publishing(lease: Lease) | Acked(lease: Lease) | Failed(lease: Lease)

  /** `claimedAt` records when each attempt of each row was leased, `ended` which of them
      finished. */
  datatype World = World(rows: Rows, clock: Time, points: set<Point>, claimedAt: map<Lease, Time>, ended: set<Lease>)

  datatype Act =
    | Insert(id: Id, t: Time)
    | ClaimRow(id: Id, t: Time)
    | Publish(p: Point, ok: bool)  // the broker confirms, or the attempt fails
    | FinishRow(p: Point, t: Time)

  const START := World(map[], 0, {}, map[], {})

  predicate Enabled(w: World, a: Act) {
    match a
    case Insert(id, t) => id !in w.rows && w.clock <= t
    case ClaimRow(id, t) => w.clock <= t && id in w.rows && Due(w.rows[id], t)
    case Publish(p, _) => p in w.points && p.Publishing?
    case FinishRow(p, t) => p in w.points && !p.Publishing? && w.clock <= t && p.lease.id in w.rows
  }

  function Do(w: World, a: Act, timeout: nat): World
    requires Enabled(w, a)
  {
    match a
    case Insert(id, t) => w.(rows := w.rows[id := Row(t, 0, t, None)], clock := t)
    case ClaimRow(id, t) =>
      var r := Leased(w.rows[id], t, timeout);
      w.(rows := w.rows[id := r], clock := t, points := w.points + {Publishing(Lease(id, r.attempts))},
         claimedAt := w.claimedAt[Lease(id, r.attempts) := t])
    case Publish(p, ok) => w.(points := w.points + {if ok then Acked(p.lease) else Failed(p.lease)})
    case FinishRow(p, t) =>
      var r := w.rows[p.lease.id];
      var r' := Closed(r, p.lease.attempt, p.Acked?, t);
      w.(rows := w.rows[p.lease.id := r'], clock := t,
         ended := if r.attempts == p.lease.attempt && r.publishedAt.None? then w.ended + {p.lease} else w.ended)
  }

  ghost predicate RowSound(w: World, id: Id, timeout: nat)
    requires id in w.rows
  {
    var r := w.rows[id];
    var now := Lease(id, r.attempts);
    (forall n: nat :: Lease(id, n) in w.claimedAt <==> 1 <= n <= r.attempts) &&
    (r.publishedAt.Some? ==> Acked(now) in w.points && now in w.ended) &&
    (r.attempts > 0 && now !in w.ended ==> r.nextAt == w.claimedAt[now] + timeout + 10000)
  }

  ghost predicate Inv(w: World, timeout: nat) {
    (forall id | id in w.rows :: RowSound(w, id, timeout)) &&
    (forall l | l in w.claimedAt :: l.id in w.rows && w.claimedAt[l] <= w.clock) &&
    (forall p | p in w.points :: p.lease in w.claimedAt) &&
    (forall l | l in w.ended :: l in w.claimedAt)
  }

  lemma RowKeeps(w: World, a: Act, timeout: nat, id: Id)
    requires Inv(w, timeout) && Enabled(w, a) && id in Do(w, a, timeout).rows
    ensures RowSound(Do(w, a, timeout), id, timeout)
  {
    if id in w.rows {
      assert RowSound(w, id, timeout);
    } else {
      forall n: nat ensures Lease(id, n) !in w.claimedAt {
      }
    }
  }

  lemma ActKeeps(w: World, a: Act, timeout: nat)
    requires Inv(w, timeout) && Enabled(w, a)
    ensures Inv(Do(w, a, timeout), timeout)
  {
    var w' := Do(w, a, timeout);
    forall id | id in w'.rows ensures RowSound(w', id, timeout) {
      RowKeeps(w, a, timeout, id);
    }
    hide RowSound;
  }

  ghost predicate IsRun(worlds: seq<World>, acts: seq<Act>, timeout: nat) {
    |worlds| == |acts| + 1 && worlds[0] == START &&
    forall i | 0 <= i < |acts| :: Enabled(worlds[i], acts[i]) && worlds[i + 1] == Do(worlds[i], acts[i], timeout)
  }

  lemma {:induction false} EveryWorldSound(worlds: seq<World>, acts: seq<Act>, timeout: nat, i: nat)
    requires IsRun(worlds, acts, timeout) && i < |worlds|
    ensures Inv(worlds[i], timeout)
  {
    if i > 0 {
      EveryWorldSound(worlds, acts, timeout, i - 1);
      ActKeeps(worlds[i - 1], acts[i - 1], timeout);
    }
  }

  /** A row becomes published only when the worker that holds its latest attempt, after a
      broker confirmation, finishes it; everyone else leaves it as it was. */
  lemma OnlyTheLatestPublishes(worlds: seq<World>, acts: seq<Act>, timeout: nat, i: nat, id: Id)
    requires IsRun(worlds, acts, timeout) && i < |acts| && id in worlds[i].rows
    requires worlds[i].rows[id].publishedAt.None? && id in worlds[i + 1].rows && worlds[i + 1].rows[id].publishedAt.Some?
    ensures acts[i].FinishRow? && acts[i].p == Acked(Lease(id, worlds[i].rows[id].attempts))
  {
  }

  lemma {:induction false} AckedByBroker(worlds: seq<World>, acts: seq<Act>, timeout: nat, i: nat, l: Lease) returns (k: nat)
    requires IsRun(worlds, acts, timeout) && i < |worlds| && Acked(l) in worlds[i].points
    ensures k < i && acts[k] == Publish(Publishing(l), true)
  {
    if Acked(l) in worlds[i - 1].points {
      k := AckedByBroker(worlds, acts, timeout, i - 1, l);
    } else {
      k := i - 1;
    }
  }

  /** A published row was published by the holder of its latest attempt, after the broker
      had confirmed that very attempt. */
  lemma {:induction false} PublishedWasConfirmed(worlds: seq<World>, acts: seq<Act>, timeout: nat, j: nat, id: Id)
    returns (k: nat, i: nat)
    requires IsRun(worlds, acts, timeout) && j < |worlds| && id in worlds[j].rows && worlds[j].rows[id].publishedAt.Some?
    ensures k < i < j && acts[k] == Publish(Publishing(Lease(id, worlds[j].rows[id].attempts)), true)
    ensures acts[i].FinishRow? && acts[i].p == Acked(Lease(id, worlds[j].rows[id].attempts))
    ensures worlds[j].rows[id].publishedAt == Some(acts[i].t)
  {
    var w, a := worlds[j - 1], acts[j - 1];
    if id in w.rows && w.rows[id].publishedAt.Some? {
      k, i := PublishedWasConfirmed(worlds, acts, timeout, j - 1, id);
      PublishedStays(w, a, timeout, id);
    } else {
      OnlyTheLatestPublishes(worlds, acts, timeout, j - 1, id);
      i := j - 1;
      k := AckedByBroker(worlds, acts, timeout, i, a.p.lease);
    }
  }

  lemma SupersededChangesNothing(worlds: seq<World>, acts: seq<Act>, timeout: nat, i: nat)
    requires IsRun(worlds, acts, timeout) && i < |acts| && acts[i].FinishRow?
    requires acts[i].p.lease.attempt != worlds[i].rows[acts[i].p.lease.id].attempts
    ensures worlds[i + 1].rows == worlds[i].rows && acts[i].p.lease.attempt < worlds[i].rows[acts[i].p.lease.id].attempts
  {
    EveryWorldSound(worlds, acts, timeout, i);
    var w, l := worlds[i], acts[i].p.lease;
    assert RowSound(w, l.id, timeout) && Lease(l.id, l.attempt) in w.claimedAt;
  }

  lemma PublishedStays(w: World, a: Act, timeout: nat, id: Id)
    requires Enabled(w, a) && id in w.rows && w.rows[id].publishedAt.Some?
    ensures id in Do(w, a, timeout).rows && Do(w, a, timeout).rows[id] == w.rows[id] && a != ClaimRow(id, w.clock)
    ensures a.ClaimRow? ==> a.id != id
  {
  }

  /** A published row is never leased again and never changes. */
  lemma {:induction false} PublishedIsFinal(worlds: seq<World>, acts: seq<Act>, timeout: nat, i: nat, j: nat, id: Id)
    requires IsRun(worlds, acts, timeout) && i <= j < |worlds| && id in worlds[i].rows && worlds[i].rows[id].publishedAt.Some?
    ensures id in worlds[j].rows && worlds[j].rows[id] == worlds[i].rows[id]
    ensures j < |acts| && acts[j].ClaimRow? ==> acts[j].id != id
    decreases j
  {
    if i < j {
      PublishedIsFinal(worlds, acts, timeout, i, j - 1, id);
      PublishedStays(worlds[j - 1], acts[j - 1], timeout, id);
    }
    if j < |acts| {
      PublishedStays(worlds[j], acts[j], timeout, id);
    }
  }

  /** An attempt is taken over only after it ended, or after its whole lease, which outlasts
      the publishing timeout by ten seconds, has run out. */
  lemma LeasesExclude(worlds: seq<World>, acts: seq<Act>, timeout: nat, i: nat)
    requires IsRun(worlds, acts, timeout) && i < |acts| && acts[i].ClaimRow? && worlds[i].rows[acts[i].id].attempts > 0
    ensures var held := Lease(acts[i].id, worlds[i].rows[acts[i].id].attempts);
            held in worlds[i].ended || (held in worlds[i].claimedAt && worlds[i].claimedAt[held] + timeout + 10000 <= acts[i].t)
  {
    EveryWorldSound(worlds, acts, timeout, i);
    assert RowSound(worlds[i], acts[i].id, timeout);
  }

  /** Every attempt number of a row is leased to one worker only. */
  lemma AttemptsAreUnique(worlds: seq<World>, acts: seq<Act>, timeout: nat, i: nat)
    requires IsRun(worlds, acts, timeout) && i < |acts| && acts[i].ClaimRow?
    ensures Lease(acts[i].id, worlds[i].rows[acts[i].id].attempts + 1) !in worlds[i].claimedAt
  {
    EveryWorldSound(worlds, acts, timeout, i);
    assert RowSound(worlds[i], acts[i].id, timeout);
  }

  /** Finishing the acknowledged latest attempt of an unpublished row publishes it then and
      there, so it is never leased again. */
  lemma ConfirmedIsPublished(worlds: seq<World>, acts: seq<Act>, timeout: nat, i: nat, j: nat)
    requires IsRun(worlds, acts, timeout) && i < j < |worlds| && acts[i].FinishRow? && acts[i].p.Acked?
    requires var l := acts[i].p.lease;
             l.id in worlds[i].rows && worlds[i].rows[l.id].attempts == l.attempt && worlds[i].rows[l.id].publishedAt.None?
    ensures var id := acts[i].p.lease.id;
            id in worlds[j].rows && worlds[j].rows[id].publishedAt == Some(acts[i].t) && worlds[j].rows[id].attempts == acts[i].p.lease.attempt &&
            (j < |acts| && acts[j].ClaimRow? ==> acts[j].id != id)
  {
    PublishedIsFinal(worlds, acts, timeout, i + 1, j, acts[i].p.lease.id);
  }

  /** Finishing a failed latest attempt leaves the row due again after exactly the retry
      delay, and not before. */
  lemma FailedIsRetried(worlds: seq<World>, acts: seq<Act>, timeout: nat, i: nat, t: Time)
    requires IsRun(worlds, acts, timeout) && i < |acts| && acts[i].FinishRow? && acts[i].p.Failed?
    requires var l := acts[i].p.lease;
             l.id in worlds[i].rows && worlds[i].rows[l.id].attempts == l.attempt && worlds[i].rows[l.id].publishedAt.None?
    requires acts[i].t <= t
    ensures Enabled(worlds[i + 1], ClaimRow(acts[i].p.lease.id, t)) <==> acts[i].t + RetryDelay(acts[i].p.lease.attempt) <= t
  {
  }
}
