/** The expiry sweep. It times out overdue reservations one by one, then writes off
    expired batches one by one, while other calls run in between. */
module InventorySweep {
  import opened Ordering
  import opened InventoryModel
  import opened InventoryLaws
  import opened InventoryInvariant
  import opened InventoryStore
  import opened InventoryRuns
  import opened InventoryTheorems

  // ----- what is reserved of an expired batch -------------------------------

  lemma {:induction false} HeldZero(rs: map<Id, Reservation>, st: HoldStatus, id: Id)
    requires forall rid | rid in rs :: Share(rs[rid], st, id) == 0
    ensures Held(rs, st, id) == 0
    decreases |rs|
  {
    if |rs| != 0 {
      HeldZero(rs - {AnyOf(rs)}, st, id);
    }
  }

  lemma {:induction false} OnSomewhere(allocations: seq<Allocation>, id: Id)
    requires forall a | a in allocations :: a.batch != id
    ensures On(allocations, id) == 0
  {
    if allocations != [] {
      OnSomewhere(allocations[1..], id);
    }
  }

  /** No reservation on hold has outlived `t0`. */
  ghost predicate NoneOverdue(s: Stock, t0: Time) {
    forall rid | rid in s.reservations && s.reservations[rid].status == ACTIVE :: s.reservations[rid].expiresAt > t0
  }

  /** A hold never outlives its batches, so a batch past its expiry holds something only
      for overdue reservations. */
  lemma ExpiredHoldsNothing(s: Stock, clock: Time, t0: Time, id: Id)
    requires Valid(s, clock) && NoneOverdue(s, t0) && id in s.batches && s.batches[id].expiresAt <= t0
    ensures s.batches[id].reserved == 0
  {
    forall rid | rid in s.reservations ensures Share(s.reservations[rid], ACTIVE, id) == 0 {
      if s.reservations[rid].status == ACTIVE {
        assert HoldSound(s, s.reservations[rid]);
        OnSomewhere(s.reservations[rid].allocations, id);
      }
    }
    HeldZero(s.reservations, ACTIVE, id);
    ValidAccounts(s, clock, id);
  }

  ghost predicate NoneStocked(s: Stock, t0: Time) {
    forall id | id in s.batches && s.batches[id].expiresAt <= t0 :: s.batches[id].available == 0 && s.batches[id].status == Expired
  }

  lemma NothingLeftIsSwept(s: Stock, clock: Time, t0: Time)
    requires Valid(s, clock) && NoneOverdue(s, t0) && NoneStocked(s, t0)
    ensures SweptAsOf(s, t0)
  {
    forall id | id in s.batches ensures Drained(s.batches[id], t0) {
      if s.batches[id].expiresAt <= t0 {
        ExpiredHoldsNothing(s, clock, t0, id);
      }
    }
  }

  // ----- runs from any sound store ------------------------------------------

  ghost predicate IsSegment(states: seq<Store>, calls: seq<Call>, ttl: int) {
    |states| == |calls| + 1 && ValidStore(states[0]) && NoneArchived(states[0].stock) &&
    forall i | 0 <= i < |calls| ::
      Admissible(states[i], calls[i]) && states[i + 1] == Step(states[i], ttl, calls[i]).0
  }

  lemma {:induction false} SegmentSound(states: seq<Store>, calls: seq<Call>, ttl: int, i: nat)
    requires IsSegment(states, calls, ttl) && i < |states|
    ensures ValidStore(states[i]) && NoneArchived(states[i].stock)
    ensures i < |calls| ==> GoodStep(states[i], states[i + 1]) && Admissible(states[i], calls[i])
  {
    hide ValidStore, NoneArchived, Step, Admissible;
    if i > 0 {
      SegmentSound(states, calls, ttl, i - 1);
    }
    if i < |calls| {
      StepGood(states[i], ttl, calls[i]);
    }
  }

  lemma {:induction false} SegmentClock(states: seq<Store>, calls: seq<Call>, ttl: int, i: nat, j: nat)
    requires IsSegment(states, calls, ttl) && i <= j < |states|
    ensures states[i].clock <= states[j].clock
  {
    hide IsSegment, NothingRevived, ValidStore, NoneArchived, Evolves;
    if i < j {
      SegmentClock(states, calls, ttl, i, j - 1);
      SegmentLong(states, calls, ttl);
      SegmentSound(states, calls, ttl, j - 1);
    }
  }

  lemma SegmentLong(states: seq<Store>, calls: seq<Call>, ttl: int)
    requires IsSegment(states, calls, ttl)
    ensures |states| == |calls| + 1
  {
  }

  // ----- overdue holds and stocked batches only ever become fewer -----------

  ghost predicate OverdueAt(s: Stock, rid: Id, t0: Time) {
    rid in s.reservations && s.reservations[rid].status == ACTIVE && s.reservations[rid].expiresAt <= t0
  }

  /** An expired batch with stock left or not yet marked. */
  ghost predicate StockedAt(s: Stock, id: Id, t0: Time) {
    id in s.batches && s.batches[id].expiresAt <= t0 && (s.batches[id].available != 0 || s.batches[id].status != Expired)
  }

  lemma StepBack(st: Store, st': Store, t0: Time, x: Id)
    requires GoodStep(st, st') && t0 <= st.clock
    ensures OverdueAt(st'.stock, x, t0) ==> OverdueAt(st.stock, x, t0) && st'.stock.reservations[x].order == st.stock.reservations[x].order
    ensures StockedAt(st'.stock, x, t0) ==> StockedAt(st.stock, x, t0)
  {
    hide ValidStore, NoneArchived;
  }

  lemma {:induction false} LookBack(states: seq<Store>, calls: seq<Call>, ttl: int, i: nat, j: nat, t0: Time, x: Id)
    requires IsSegment(states, calls, ttl) && i <= j < |states| && t0 <= states[i].clock
    ensures OverdueAt(states[j].stock, x, t0) ==>
              OverdueAt(states[i].stock, x, t0) && states[j].stock.reservations[x].order == states[i].stock.reservations[x].order
    ensures StockedAt(states[j].stock, x, t0) ==> StockedAt(states[i].stock, x, t0)
  {
    hide IsSegment, GoodStep, StockedAt;
    if i < j {
      SegmentLong(states, calls, ttl);
      LookBack(states, calls, ttl, i, j - 1, t0, x);
      SegmentSound(states, calls, ttl, j - 1);
      SegmentClock(states, calls, ttl, i, j - 1);
      StepBack(states[j - 1], states[j - 1 + 1], t0, x);
    }
  }

  // ----- the sweep completes ------------------------------------------------

  ghost predicate TimedOut(calls: seq<Call>, i: nat, j: nat, rid: Id, order: Id)
    requires j <= |calls|
  {
    exists m | i <= m < j :: calls[m].CallExpireHold? && calls[m].rid == rid && calls[m].order == order
  }

  ghost predicate WrittenOff(calls: seq<Call>, i: nat, j: nat, id: Id)
    requires j <= |calls|
  {
    exists m | i <= m < j :: calls[m].CallExpireBatch? && calls[m].batch == id
  }

  lemma TimeoutEnds(st: Store, ttl: int, c: Call, t0: Time)
    requires ValidStore(st) && c.CallExpireHold? && st.clock <= c.t && t0 <= st.clock
    requires c.rid in st.stock.reservations && st.stock.reservations[c.rid].order == c.order
    ensures !OverdueAt(Step(st, ttl, c).0.stock, c.rid, t0)
  {
    hide Valid, Transition;
    TimeoutOutcome(st.stock, st.clock, c.rid, c.order, c.t);
    var o := Transition(st.stock, c.rid, c.order, TIMEOUT, false, true, c.t).value.0;
    assert Step(st, ttl, c).0.stock == o;
    TimeoutKeepsTerms(st.stock, st.clock, c.rid, c.order, c.t);
  }

  lemma TimeoutKeepsTerms(s: Stock, clock: Time, rid: Id, order: Id, t: Time)
    requires Valid(s, clock) && clock <= t && rid in s.reservations && Transition(s, rid, order, TIMEOUT, false, true, t).Ok?
    ensures var s' := Transition(s, rid, order, TIMEOUT, false, true, t).value.0;
            rid in s'.reservations && s'.reservations[rid].expiresAt == s.reservations[rid].expiresAt
  {
    hide Valid, Transition;
    TransitionGood(s, clock, rid, order, TIMEOUT, false, true, t);
  }

  lemma WriteOffEmpties(st: Store, ttl: int, c: Call, t0: Time)
    requires ValidStore(st) && c.CallExpireBatch? && st.clock <= c.t && t0 <= st.clock && NoneArchived(st.stock)
    ensures !StockedAt(Step(st, ttl, c).0.stock, c.batch, t0)
  {
    assert c.batch in st.stock.batches ==> BatchSound(st.stock.batches[c.batch]);
    hide Valid;
  }

  /** What the two discovery queries cover, at `i` and at `j`. */
  ghost predicate Covers(states: seq<Store>, calls: seq<Call>, i: nat, j: nat, k: nat, t0: Time)
    requires i <= j <= k < |states| && |states| == |calls| + 1
  {
    (forall rid: Id | OverdueAt(states[i].stock, rid, t0) :: TimedOut(calls, i, j, rid, states[i].stock.reservations[rid].order)) &&
    (forall id: Id | StockedAt(states[j].stock, id, t0) :: WrittenOff(calls, j, k, id))
  }

  lemma HoldsSettled(states: seq<Store>, calls: seq<Call>, ttl: int, i: nat, j: nat, t0: Time, rid: Id)
    requires IsSegment(states, calls, ttl) && i <= j < |states| == |calls| + 1 && t0 <= states[i].clock
    requires OverdueAt(states[i].stock, rid, t0) ==> TimedOut(calls, i, j, rid, states[i].stock.reservations[rid].order)
    ensures !OverdueAt(states[j].stock, rid, t0)
  {
    LookBack(states, calls, ttl, i, j, t0, rid);
    if OverdueAt(states[j].stock, rid, t0) {
      var m :| i <= m < j && calls[m].CallExpireHold? && calls[m].rid == rid && calls[m].order == states[i].stock.reservations[rid].order;
      SegmentSound(states, calls, ttl, m);
      SegmentClock(states, calls, ttl, i, m);
      SegmentClock(states, calls, ttl, i, m + 1);
      LookBack(states, calls, ttl, m, j, t0, rid);
      LookBack(states, calls, ttl, m + 1, j, t0, rid);
      LookBack(states, calls, ttl, i, m, t0, rid);
      TimeoutEnds(states[m], ttl, calls[m], t0);
    }
  }

  lemma BatchesEmptied(states: seq<Store>, calls: seq<Call>, ttl: int, j: nat, k: nat, t0: Time, id: Id)
    requires IsSegment(states, calls, ttl) && j <= k < |states| == |calls| + 1 && t0 <= states[j].clock
    requires StockedAt(states[j].stock, id, t0) ==> WrittenOff(calls, j, k, id)
    ensures !StockedAt(states[k].stock, id, t0)
  {
    LookBack(states, calls, ttl, j, k, t0, id);
    if StockedAt(states[k].stock, id, t0) {
      var m :| j <= m < k && calls[m].CallExpireBatch? && calls[m].batch == id;
      SegmentSound(states, calls, ttl, m);
      SegmentClock(states, calls, ttl, j, m);
      SegmentClock(states, calls, ttl, j, m + 1);
      LookBack(states, calls, ttl, m + 1, k, t0, id);
      WriteOffEmpties(states[m], ttl, calls[m], t0);
    }
  }

  /** A sweep that saw everything overdue at `t0` leaves every batch expired by then with
      nothing for sale and nothing on hold, whatever other calls ran meanwhile, and no
      later call undoes it. */
  lemma SweepCompletes(states: seq<Store>, calls: seq<Call>, ttl: int, i: nat, j: nat, k: nat, later: nat, t0: Time)
    requires IsSegment(states, calls, ttl) && i <= j <= k <= later < |states| == |calls| + 1 && t0 <= states[i].clock
    requires Covers(states, calls, i, j, k, t0)
    ensures SweptAsOf(states[later].stock, t0)
  {
    hide IsSegment, TimedOut, WrittenOff;
    SegmentClock(states, calls, ttl, i, j);
    SegmentClock(states, calls, ttl, i, k);
    var s := states[later].stock;
    forall rid: Id ensures !OverdueAt(s, rid, t0) {
      HoldsSettled(states, calls, ttl, i, j, t0, rid);
      LookBack(states, calls, ttl, j, later, t0, rid);
    }
    forall id: Id ensures !StockedAt(s, id, t0) {
      BatchesEmptied(states, calls, ttl, j, k, t0, id);
      LookBack(states, calls, ttl, k, later, t0, id);
    }
    SegmentSound(states, calls, ttl, later);
    hide Covers;
    assert NoneOverdue(s, t0) by {
      forall rid | rid in s.reservations && s.reservations[rid].status == ACTIVE ensures s.reservations[rid].expiresAt > t0 {
        assert !OverdueAt(s, rid, t0);
      }
    }
    assert NoneStocked(s, t0) by {
      forall id | id in s.batches && s.batches[id].expiresAt <= t0 ensures s.batches[id].available == 0 && s.batches[id].status == Expired {
        assert !StockedAt(s, id, t0);
      }
    }
    NothingLeftIsSwept(s, states[later].clock, t0);
  }
}
