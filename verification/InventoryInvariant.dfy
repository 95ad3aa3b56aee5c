/** The invariant of the stock tables, and that every transaction keeps it. */
module InventoryInvariant {
  import opened Ordering
  import opened InventoryModel
  import opened InventoryLaws
  import opened Fefo

  ghost predicate BatchSound(b: Batch) {
    b.available >= 0 && b.reserved >= 0 && b.sold >= 0 && b.wasted >= 0 &&
    b.initial == b.available + b.reserved + b.sold + b.wasted &&
    1 <= b.initial <= MAX_PORTIONS &&
    b.unitCost >= 0 && b.unitCost * b.initial <= MAX_INT64
  }

  ghost predicate StatusSound(b: Batch, clock: Time) {
    (b.status.Active? ==> b.available > 0) &&
    (b.status.Exhausted? ==> b.available == 0) &&
    (b.status.Expired? ==> b.expiresAt <= clock)
  }

  /** The four balances, derived from the other tables alone: held and sold from the
      reservations, wasted from the waste records, and all four from the ledger. */
  ghost predicate Accounted(s: Stock, id: Id) {
    var bal := if id in s.batches then Bal(s.batches[id]) else ZERO;
    bal.reserved == Held(s.reservations, ACTIVE, id) &&
    bal.sold == Held(s.reservations, CONFIRMED, id) &&
    bal.wasted == WasteOn(s.wastes, id) &&
    bal == Replay(s.ledger, id) &&
    CostOn(s.wastes, id) == if id in s.batches then s.batches[id].unitCost * bal.wasted else 0
  }

  ghost predicate HoldSound(s: Stock, r: Reservation) {
    r.allocations != [] && NoRepeat(r.allocations) && r.createdAt < r.expiresAt &&
    forall a | a in r.allocations ::
      a.portions > 0 && a.batch in s.batches && s.batches[a.batch].flavor == a.flavor &&
      r.expiresAt <= s.batches[a.batch].expiresAt
  }

  ghost predicate WasConfirmed(s: Stock, rid: Id, id: Id) {
    rid in s.reservations &&
    (s.reservations[rid].status == CONFIRMED || s.reservations[rid].status == RETURNED) &&
    On(s.reservations[rid].allocations, id) > 0
  }

  ghost predicate OneHoldPerOrder(s: Stock) {
    forall x, y | x in s.reservations && y in s.reservations ::
      s.reservations[x].order == s.reservations[y].order ==> x == y
  }

  ghost predicate UniqueCodes(s: Stock) {
    forall x, y | x in s.batches && y in s.batches :: s.batches[x].code == s.batches[y].code ==> x == y
  }

  ghost predicate BatchesSound(s: Stock, clock: Time) {
    forall id | id in s.batches :: BatchSound(s.batches[id]) && StatusSound(s.batches[id], clock)
  }

  ghost predicate AllAccounted(s: Stock) {
    forall id: Id :: Accounted(s, id)
  }

  ghost predicate HoldsSound(s: Stock) {
    forall rid | rid in s.reservations :: HoldSound(s, s.reservations[rid])
  }

  ghost predicate LedgerShowsConfirmed(s: Stock) {
    forall rid: Id, id: Id :: ConfirmedIn(s.ledger, rid, id) <==> WasConfirmed(s, rid, id)
  }

  ghost predicate Valid(s: Stock, clock: Time) {
    BatchesSound(s, clock) && AllAccounted(s) && HoldsSound(s) && LedgerShowsConfirmed(s) &&
    OneHoldPerOrder(s) && UniqueCodes(s)
  }

  /** Batches are never removed and keep their identity, flavor, expiry and cost. */
  ghost predicate BatchesKept(s: Stock, s': Stock) {
    forall id | id in s.batches :: id in s'.batches && SameBatch(s.batches[id], s'.batches[id])
  }

  lemma HoldStaysSound(s: Stock, s': Stock, r: Reservation)
    requires HoldSound(s, r) && BatchesKept(s, s')
    ensures HoldSound(s', r)
  {
  }

  lemma ValidLater(s: Stock, clock: Time, t: Time)
    requires Valid(s, clock) && clock <= t
    ensures Valid(s, t)
  {
  }

  // ----- settlement ---------------------------------------------------------

  function Source(k: Settlement): HoldStatus {
    if k.Returning? then CONFIRMED else ACTIVE
  }

  predicate Settles(k: Settlement, target: HoldStatus) {
    match k
    case Confirming => target == CONFIRMED
    case Releasing => target == RELEASED || target == EXPIRED
    case Returning => target == RETURNED
  }

  ghost predicate Settling(s: Stock, clock: Time, rid: Id, k: Settlement, target: HoldStatus, t: Time, s': Stock) {
    Valid(s, clock) && clock <= t && rid in s.reservations && s.reservations[rid].status == Source(k) &&
    Settles(k, target) && Settle(s, rid, s.reservations[rid].allocations, k, t) == Ok(s')
  }

  ghost predicate HeldAgrees(s: Stock, id: Id) {
    var bal := if id in s.batches then Bal(s.batches[id]) else ZERO;
    bal.reserved == Held(s.reservations, ACTIVE, id) && bal.sold == Held(s.reservations, CONFIRMED, id)
  }

  lemma ValidAccounts(s: Stock, clock: Time, id: Id)
    requires Valid(s, clock)
    ensures Accounted(s, id)
  {
  }

  lemma ValidHeld(s: Stock, clock: Time, id: Id)
    requires Valid(s, clock)
    ensures HeldAgrees(s, id)
  {
    ValidAccounts(s, clock, id);
  }

  lemma SettleHeld(s: Stock, clock: Time, rid: Id, k: Settlement, target: HoldStatus, reason: string, t: Time,
                   s': Stock, id: Id)
    requires Settling(s, clock, rid, k, target, t, s')
    ensures HeldAgrees(Close(s', rid, s.reservations[rid], target, reason), id)
  {
    var r := s.reservations[rid];
    hide Valid, Settle, Held, HeldAgrees, MovedBy, On;
    SettleMoves(s, rid, r.allocations, k, t, id, s');
    ValidHeld(s, clock, id);
    MovedAgrees(s, s', rid, k, target, reason, t, id);
  }

  lemma MovedAgrees(s: Stock, s': Stock, rid: Id, k: Settlement, target: HoldStatus, reason: string, t: Time, id: Id)
    requires rid in s.reservations && s.reservations[rid].status == Source(k) && Settles(k, target)
    requires MovedBy(s, s', On(s.reservations[rid].allocations, id), k, t, id) && HeldAgrees(s, id)
    ensures HeldAgrees(Close(s', rid, s.reservations[rid], target, reason), id)
  {
    hide Held, On, SameBatch, Stamped;
    HeldSettled(s.reservations, rid, s.reservations[rid].(status := target, releaseReason := reason), k, id);
  }

  lemma HeldSettled(rs: map<Id, Reservation>, rid: Id, done: Reservation, k: Settlement, id: Id)
    requires rid in rs && rs[rid].status == Source(k) && Settles(k, done.status) && done.allocations == rs[rid].allocations
    ensures var n := On(done.allocations, id);
            Held(rs[rid := done], ACTIVE, id) == Held(rs, ACTIVE, id) - (if k.Returning? then 0 else n) &&
            Held(rs[rid := done], CONFIRMED, id) ==
              Held(rs, CONFIRMED, id) + (if k.Confirming? then n else if k.Returning? then -n else 0)
  {
    HeldUpdate(rs, ACTIVE, id, rid, done);
    HeldUpdate(rs, CONFIRMED, id, rid, done);
  }

  lemma SettleWasted(s: Stock, clock: Time, rid: Id, k: Settlement, target: HoldStatus, t: Time, s': Stock, id: Id)
    requires Settling(s, clock, rid, k, target, t, s')
    ensures id in s'.batches ==> s'.batches[id].wasted == WasteOn(s'.wastes, id)
    ensures id in s'.batches ==> CostOn(s'.wastes, id) == s'.batches[id].unitCost * s'.batches[id].wasted
    ensures id !in s'.batches ==> WasteOn(s'.wastes, id) == 0 && CostOn(s'.wastes, id) == 0
  {
    var r := s.reservations[rid];
    var lost := Lost(s, On(r.allocations, id), k, t, id);
    hide Valid, Replay, Settle, Held;
    ValidAccounts(s, clock, id);
    SettleLoses(s, rid, r.allocations, k, t, id, s');
    assert s'.batches.Keys == s.batches.Keys && (id !in s.batches ==> On(r.allocations, id) == 0) &&
           (id in s.batches ==> s'.batches[id].wasted == s.batches[id].wasted + lost &&
                                s'.batches[id].unitCost == s.batches[id].unitCost) by {
      SettleMoves(s, rid, r.allocations, k, t, id, s');
    }
    if id in s.batches {
      Distribute(s.batches[id].unitCost, s.batches[id].wasted, lost);
    }
  }

  lemma SettleAccounts(s: Stock, clock: Time, rid: Id, k: Settlement, target: HoldStatus, reason: string, t: Time,
                       s': Stock, id: Id)
    requires Settling(s, clock, rid, k, target, t, s')
    ensures Accounted(Close(s', rid, s.reservations[rid], target, reason), id)
  {
    var r := s.reservations[rid];
    SettleHeld(s, clock, rid, k, target, reason, t, s', id);
    SettleWasted(s, clock, rid, k, target, t, s', id);
    assert Replay(s'.ledger, id) == if id in s'.batches then Bal(s'.batches[id]) else ZERO by {
      assert Accounted(s, id) && HoldSound(s, r);
      assert ConfirmedIn(s.ledger, rid, id) <==> WasConfirmed(s, rid, id);
      SettleMoves(s, rid, r.allocations, k, t, id, s');
      SettleLogs(s, rid, r.allocations, k, t, id, s');
    }
  }

  lemma SettleKeepsBatch(s: Stock, clock: Time, rid: Id, k: Settlement, target: HoldStatus, reason: string, t: Time,
                         s': Stock, id: Id)
    requires Settling(s, clock, rid, k, target, t, s') && id in s'.batches
    ensures id in s.batches && BatchSound(s'.batches[id]) && StatusSound(s'.batches[id], t)
    ensures SameBatch(s.batches[id], s'.batches[id])
  {
    var r := s.reservations[rid];
    SettleMoves(s, rid, r.allocations, k, t, id, s');
    SettleAccounts(s, clock, rid, k, target, reason, t, s', id);
    OnNonNegative(r.allocations, id);
    HeldBounds(Close(s', rid, r, target, reason).reservations, ACTIVE, id);
    HeldBounds(Close(s', rid, r, target, reason).reservations, CONFIRMED, id);
  }

  lemma SettlePreserves(s: Stock, clock: Time, rid: Id, k: Settlement, target: HoldStatus, reason: string, t: Time,
                        s': Stock)
    requires Settling(s, clock, rid, k, target, t, s')
    ensures Valid(Close(s', rid, s.reservations[rid], target, reason), t)
  {
    var r := s.reservations[rid];
    var s'' := Close(s', rid, r, target, reason);
    SettleMoves(s, rid, r.allocations, k, t, rid, s');
    assert AllAccounted(s'') by {
      forall id: Id ensures Accounted(s'', id) {
        SettleAccounts(s, clock, rid, k, target, reason, t, s', id);
      }
    }
    assert BatchesSound(s'', t) && BatchesKept(s, s'') by {
      forall id | id in s'.batches
        ensures id in s.batches && BatchSound(s'.batches[id]) && StatusSound(s'.batches[id], t) &&
                SameBatch(s.batches[id], s'.batches[id])
      {
        SettleKeepsBatch(s, clock, rid, k, target, reason, t, s', id);
      }
    }
    assert LedgerShowsConfirmed(s'') by {
      forall x: Id, id: Id ensures ConfirmedIn(s''.ledger, x, id) <==> WasConfirmed(s'', x, id) {
        assert ConfirmedIn(s.ledger, x, id) <==> WasConfirmed(s, x, id);
        assert HoldSound(s, r);
        SettleConfirms(s, rid, r.allocations, k, t, id, x, s');
      }
    }
    assert HoldsSound(s'') by {
      forall x | x in s''.reservations ensures HoldSound(s'', s''.reservations[x]) {
        assert HoldSound(s, s.reservations[x]);
        HoldStaysSound(s, s'', s.reservations[x]);
      }
    }
    assert UniqueCodes(s'') && OneHoldPerOrder(s'');
  }

  /** Conservation makes every guard of the settlement loop unreachable: there is
      always as much reserved (or sold) as the reservation says, and a hold ends no
      later than any of its batches, so confirmation never meets an expired one. */
  lemma GuardsNeverFire(s: Stock, clock: Time, rid: Id, k: Settlement, t: Time)
    requires Valid(s, clock) && rid in s.reservations && s.reservations[rid].status == Source(k)
    requires k.Confirming? ==> s.reservations[rid].expiresAt > t
    requires k.Confirming? ==> forall a | a in s.reservations[rid].allocations :: !s.batches[a.batch].status.Archived?
    ensures Settle(s, rid, s.reservations[rid].allocations, k, t).Ok?
  {
    var r := s.reservations[rid];
    assert HoldSound(s, r);
    forall id | id in s.batches
      ensures On(r.allocations, id) <= Pocket(s.batches[id], k)
    {
      assert Accounted(s, id);
      HeldBounds(s.reservations, Source(k), id);
      assert Share(r, Source(k), id) <= Held(s.reservations, Source(k), id);
    }
    SettleSucceeds(s, rid, r.allocations, k, t);
  }

  // ----- reservation --------------------------------------------------------

  ghost predicate HeldBy(s: Stock, s': Stock, n: int, t: Time, id: Id) {
    s'.reservations == s.reservations && s'.wastes == s.wastes && s.ledger <= s'.ledger &&
    s'.batches.Keys == s.batches.Keys &&
    (id in s.batches ==>
      SameBatch(s.batches[id], s'.batches[id]) && Stamped(s.batches[id], s'.batches[id], t) &&
      Bal(s'.batches[id]) == HoldShift(Bal(s.batches[id]), n))
  }

  ghost function HoldShift(bal: Balances, n: int): Balances {
    bal.(available := bal.available - n, reserved := bal.reserved + n)
  }

  lemma HoldOneLogs(s: Stock, rid: Id, a: Allocation, t: Time, id: Id)
    requires a.batch in s.batches
    ensures Replay(HoldOne(s, rid, a, t).ledger, id) ==
            HoldShift(Replay(s.ledger, id), if a.batch == id then a.portions else 0)
  {
    assert HoldOne(s, rid, a, t).ledger[..|s.ledger|] == s.ledger;
  }

  lemma HoldOneConfirmsNone(s: Stock, rid: Id, a: Allocation, t: Time, id: Id, x: Id)
    requires a.batch in s.batches
    ensures ConfirmedIn(HoldOne(s, rid, a, t).ledger, x, id) <==> ConfirmedIn(s.ledger, x, id)
  {
    assert HoldOne(s, rid, a, t).ledger[..|s.ledger|] == s.ledger;
  }

  lemma {:induction false} HoldEffect(s: Stock, rid: Id, allocations: seq<Allocation>, t: Time, id: Id)
    requires forall a | a in allocations :: a.batch in s.batches
    ensures HeldBy(s, Hold(s, rid, allocations, t), On(allocations, id), t, id)
    decreases |allocations|
  {
    if allocations != [] {
      HoldEffect(HoldOne(s, rid, allocations[0], t), rid, allocations[1..], t, id);
    }
  }

  lemma {:induction false} HoldLogs(s: Stock, rid: Id, allocations: seq<Allocation>, t: Time, id: Id)
    requires forall a | a in allocations :: a.batch in s.batches
    ensures Replay(Hold(s, rid, allocations, t).ledger, id) == HoldShift(Replay(s.ledger, id), On(allocations, id))
    decreases |allocations|
  {
    if allocations != [] {
      HoldOneLogs(s, rid, allocations[0], t, id);
      var mid := HoldOne(s, rid, allocations[0], t);
      HoldLogs(mid, rid, allocations[1..], t, id);
      HoldLogsStep(s, rid, allocations, t, id);
    }
  }

  lemma HoldLogsStep(s: Stock, rid: Id, allocations: seq<Allocation>, t: Time, id: Id)
    requires forall a | a in allocations :: a.batch in s.batches
    requires allocations != []
    requires var mid := HoldOne(s, rid, allocations[0], t);
             Replay(mid.ledger, id) == HoldShift(Replay(s.ledger, id), if allocations[0].batch == id then allocations[0].portions else 0) &&
             Replay(Hold(mid, rid, allocations[1..], t).ledger, id) == HoldShift(Replay(mid.ledger, id), On(allocations[1..], id))
    ensures Replay(Hold(s, rid, allocations, t).ledger, id) == HoldShift(Replay(s.ledger, id), On(allocations, id))
  {
  }

  lemma {:induction false} HoldConfirmsNone(s: Stock, rid: Id, allocations: seq<Allocation>, t: Time, id: Id, x: Id)
    requires forall a | a in allocations :: a.batch in s.batches
    ensures ConfirmedIn(Hold(s, rid, allocations, t).ledger, x, id) <==> ConfirmedIn(s.ledger, x, id)
    decreases |allocations|
  {
    if allocations != [] {
      HoldOneConfirmsNone(s, rid, allocations[0], t, id, x);
      HoldConfirmsNone(HoldOne(s, rid, allocations[0], t), rid, allocations[1..], t, id, x);
    }
  }

  /** What the plan hands to the write loop. */
  ghost predicate Holding(s: Stock, clock: Time, rid: Id, r: Reservation, t: Time) {
    Valid(s, clock) && clock <= t && rid !in s.reservations && r.status == ACTIVE && HoldSound(s, r) &&
    !OrderHasHold(s, r.order) &&
    forall id | id in s.batches :: On(r.allocations, id) <= s.batches[id].available
  }

  function Held0(s: Stock, rid: Id, r: Reservation): Stock {
    s.(reservations := s.reservations[rid := r])
  }

  lemma HoldAccounts(s: Stock, clock: Time, rid: Id, r: Reservation, t: Time, id: Id)
    requires Holding(s, clock, rid, r, t)
    ensures Accounted(Hold(Held0(s, rid, r), rid, r.allocations, t), id)
  {
    assert Accounted(s, id);
    HoldEffect(Held0(s, rid, r), rid, r.allocations, t, id);
    HoldLogs(Held0(s, rid, r), rid, r.allocations, t, id);
    HeldUpdate(s.reservations, ACTIVE, id, rid, r);
    HeldUpdate(s.reservations, CONFIRMED, id, rid, r);
    OnNonNegative(r.allocations, id);
  }

  lemma HoldKeepsBatch(s: Stock, clock: Time, rid: Id, r: Reservation, t: Time, id: Id)
    requires Holding(s, clock, rid, r, t) && id in s.batches
    ensures id in Hold(Held0(s, rid, r), rid, r.allocations, t).batches
    ensures var b := Hold(Held0(s, rid, r), rid, r.allocations, t).batches[id];
            BatchSound(b) && StatusSound(b, t) && SameBatch(s.batches[id], b)
  {
    HoldEffect(Held0(s, rid, r), rid, r.allocations, t, id);
    OnNonNegative(r.allocations, id);
  }

  lemma HoldPreserves(s: Stock, clock: Time, rid: Id, r: Reservation, t: Time)
    requires Holding(s, clock, rid, r, t)
    ensures Valid(Hold(Held0(s, rid, r), rid, r.allocations, t), t)
  {
    var s' := Hold(Held0(s, rid, r), rid, r.allocations, t);
    HoldEffect(Held0(s, rid, r), rid, r.allocations, t, rid);
    assert AllAccounted(s') by {
      forall id: Id ensures Accounted(s', id) {
        HoldAccounts(s, clock, rid, r, t, id);
      }
    }
    assert BatchesSound(s', t) && BatchesKept(s, s') by {
      forall id | id in s'.batches
        ensures id in s.batches && BatchSound(s'.batches[id]) && StatusSound(s'.batches[id], t) &&
                SameBatch(s.batches[id], s'.batches[id])
      {
        HoldKeepsBatch(s, clock, rid, r, t, id);
      }
    }
    assert LedgerShowsConfirmed(s') by {
      forall x: Id, id: Id ensures ConfirmedIn(s'.ledger, x, id) <==> WasConfirmed(s', x, id) {
        assert ConfirmedIn(s.ledger, x, id) <==> WasConfirmed(s, x, id);
        HoldConfirmsNone(Held0(s, rid, r), rid, r.allocations, t, id, x);
      }
    }
    assert HoldsSound(s') by {
      forall x | x in s'.reservations ensures HoldSound(s', s'.reservations[x]) {
        assert x != rid ==> HoldSound(s, s.reservations[x]);
        HoldStaysSound(s, s', s'.reservations[x]);
      }
    }
    NamesStayUnique(s, s', rid, r);
  }

  lemma NamesStayUnique(s: Stock, s': Stock, rid: Id, r: Reservation)
    requires UniqueCodes(s) && OneHoldPerOrder(s) && !OrderHasHold(s, r.order)
    requires s'.batches.Keys == s.batches.Keys && BatchesKept(s, s') && s'.reservations == s.reservations[rid := r]
    ensures UniqueCodes(s') && OneHoldPerOrder(s')
  {
  }

  // ----- production, waste and expiry of a batch ----------------------------

  /** `n` unsold, unheld portions of a batch written off. */
  function Spoil(s: Stock, id: Id, n: int, reason: WasteReason, note: string, t: Time): Stock
    requires id in s.batches
  {
    var b := s.batches[id];
    Save(WriteOff(s, id, b, n, reason, note, None, t), id, b.(available := b.available - n, wasted := b.wasted + n), t)
  }

  lemma SpoilAccounts(s: Stock, id: Id, n: int, reason: WasteReason, note: string, t: Time, x: Id)
    requires id in s.batches && Accounted(s, x)
    ensures Accounted(Spoil(s, id, n, reason, note, t), x)
  {
    var s' := Spoil(s, id, n, reason, note, t);
    assert s'.ledger[..|s.ledger|] == s.ledger && s'.wastes[..|s.wastes|] == s.wastes;
    if x == id {
      Distribute(s.batches[id].unitCost, s.batches[id].wasted, n);
    }
  }

  lemma SpoilPreserves(s: Stock, clock: Time, id: Id, n: int, reason: WasteReason, note: string, t: Time)
    requires Valid(s, clock) && clock <= t && id in s.batches && 0 < n <= s.batches[id].available
    ensures Valid(Spoil(s, id, n, reason, note, t), t)
  {
    var s' := Spoil(s, id, n, reason, note, t);
    forall x: Id ensures Accounted(s', x) {
      assert Accounted(s, x);
      SpoilAccounts(s, id, n, reason, note, t, x);
    }
    forall rid: Id, x: Id ensures ConfirmedIn(s'.ledger, rid, x) <==> WasConfirmed(s', rid, x) {
      assert s'.ledger[..|s.ledger|] == s.ledger;
      assert ConfirmedIn(s.ledger, rid, x) <==> WasConfirmed(s, rid, x);
    }
    forall rid | rid in s'.reservations ensures HoldSound(s', s'.reservations[rid]) {
      assert HoldSound(s, s.reservations[rid]);
    }
  }

  lemma RestampPreserves(s: Stock, clock: Time, id: Id, t: Time)
    requires Valid(s, clock) && clock <= t && id in s.batches
    ensures Valid(Save(s, id, s.batches[id], t), t)
  {
    var s' := Save(s, id, s.batches[id], t);
    forall x: Id ensures Accounted(s', x) {
      assert Accounted(s, x);
    }
    forall rid: Id, x: Id ensures ConfirmedIn(s'.ledger, rid, x) <==> WasConfirmed(s', rid, x) {
      assert ConfirmedIn(s.ledger, rid, x) <==> WasConfirmed(s, rid, x);
    }
    forall rid | rid in s'.reservations ensures HoldSound(s', s'.reservations[rid]) {
      assert HoldSound(s, s.reservations[rid]);
    }
  }

  lemma CreateAccounts(s: Stock, id: Id, p: Production, t: Time, x: Id)
    requires ValidProduction(p) && Create(s, id, p, t).Ok? && id !in s.batches && Accounted(s, x)
    ensures Accounted(Create(s, id, p, t).value.0, x)
  {
    var s' := Create(s, id, p, t).value.0;
    ProducedReplay(s.ledger, Movement(id, None, Produced, p.initial, t), x);
  }

  lemma ProducedReplay(ledger: seq<Movement>, m: Movement, x: Id)
    requires m.kind.Produced?
    ensures Replay(ledger + [m], x) ==
            Replay(ledger, x).(available := Replay(ledger, x).available + if m.batch == x then m.portions else 0)
  {
    assert (ledger + [m])[..|ledger|] == ledger;
  }

  lemma CostFits(cost: int, n: int)
    requires n >= 1 && 0 <= cost <= MAX_INT64 / n
    ensures cost * n <= MAX_INT64
  {
    var q := MAX_INT64 / n;
    assert MAX_INT64 == q * n + MAX_INT64 % n;
    assert (q - cost) * n >= 0;
  }

  lemma CreatePreserves(s: Stock, clock: Time, id: Id, p: Production, t: Time)
    requires Valid(s, clock) && clock <= t && id !in s.batches
    requires ValidProduction(p) && Create(s, id, p, t).Ok?
    ensures Valid(Create(s, id, p, t).value.0, t)
  {
    var s' := Create(s, id, p, t).value.0;
    CostFits(p.unitCost.value, p.initial);
    forall x: Id ensures Accounted(s', x) {
      assert Accounted(s, x);
      CreateAccounts(s, id, p, t, x);
    }
    forall rid: Id, x: Id ensures ConfirmedIn(s'.ledger, rid, x) <==> WasConfirmed(s', rid, x) {
      assert s'.ledger[..|s.ledger|] == s.ledger;
      assert ConfirmedIn(s.ledger, rid, x) <==> WasConfirmed(s, rid, x);
    }
    forall rid | rid in s'.reservations ensures HoldSound(s', s'.reservations[rid]) {
      assert HoldSound(s, s.reservations[rid]);
    }
  }

  // ----- whole transactions -------------------------------------------------

  lemma EmptyValid(t: Time)
    ensures Valid(EMPTY_STOCK, t)
  {
  }

  lemma ReserveSound(s: Stock, clock: Time, rid: Id, order: Id, items: seq<Item>, ttl: int, t: Time, current: Time)
    requires Valid(s, clock) && clock <= t <= current && rid !in s.reservations
    requires items != [] && ValidItems(items)
    requires Reserve(s, rid, order, items, ttl, t, current).Ok?
    ensures Holding(s, clock, rid, Reserve(s, rid, order, items, ttl, t, current).value.1, current)
  {
    var r := Reserve(s, rid, order, items, ttl, t, current).value.1;
    PlanUsesKnownBatches(s.batches, items, t);
    forall a | a in r.allocations ensures a.portions > 0 && Eligible(s.batches[a.batch], a.flavor, t) {
      PlanUses(s.batches, items, t, a);
    }
    PlanRepeatsNone(s.batches, items, t);
    forall id | id in s.batches ensures On(r.allocations, id) <= s.batches[id].available {
      PlanWithinStock(s, clock, items, t, id);
    }
    PlanExact(s.batches, items, t, items[0].flavor);
  }

  lemma PlanWithinStock(s: Stock, clock: Time, items: seq<Item>, t: Time, id: Id)
    requires Valid(s, clock) && ValidItems(items) && Plan(s.batches, items, t).Ok? && id in s.batches
    ensures On(Plan(s.batches, items, t).value, id) <= s.batches[id].available
  {
    if Asks(items, s.batches[id].flavor) {
      var i :| 0 <= i < |items| && items[i].flavor == s.batches[id].flavor;
      PlanOn(s.batches, items, t, id, i);
      WalkOn(s.batches, items[i], t, id);
    } else {
      PlanOff(s.batches, items, t, id);
    }
  }

  lemma ReservePreserves(s: Stock, clock: Time, rid: Id, order: Id, items: seq<Item>, ttl: int, t: Time, current: Time)
    requires Valid(s, clock) && clock <= t <= current && rid !in s.reservations
    requires items != [] && ValidItems(items)
    requires Reserve(s, rid, order, items, ttl, t, current).Ok?
    ensures Valid(Reserve(s, rid, order, items, ttl, t, current).value.0, current)
  {
    var r := Reserve(s, rid, order, items, ttl, t, current).value.1;
    ReserveSound(s, clock, rid, order, items, ttl, t, current);
    HoldPreserves(s, clock, rid, r, current);
  }

  lemma DiscardPreserves(s: Stock, clock: Time, id: Id, n: int, reason: WasteReason, note: string, t: Time)
    requires Valid(s, clock) && clock <= t && n >= 1
    requires Discard(s, id, n, reason, note, t).Ok?
    ensures Valid(Discard(s, id, n, reason, note, t).value.0, t)
  {
    SpoilPreserves(s, clock, id, n, reason, note, t);
  }

  lemma ExpireBatchPreserves(s: Stock, clock: Time, id: Id, t: Time)
    requires Valid(s, clock) && clock <= t
    requires ExpireBatch(s, id, t).Ok?
    ensures Valid(ExpireBatch(s, id, t).value, t)
  {
    var b := s.batches[id];
    if b.expiresAt > t || b.status.Archived? {
      ValidLater(s, clock, t);
    } else if b.available > 0 {
      SpoilPreserves(s, clock, id, b.available, PastExpiry, "batch expiry", t);
      assert ExpireBatch(s, id, t).value == Spoil(s, id, b.available, PastExpiry, "batch expiry", t);
    } else {
      RestampPreserves(s, clock, id, t);
    }
  }
}
