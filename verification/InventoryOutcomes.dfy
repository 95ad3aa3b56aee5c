/** What each stock transaction answers and leaves behind, for every input: the exact
    condition of success and of each error, and the rows, movements and waste records
    after it. */
module InventoryOutcomes {
  import opened Ordering
  import opened InventoryModel
  import opened InventoryLaws
  import opened Fefo
  import opened InventoryInvariant
  import opened InventoryRuns

  // ----- stored status ------------------------------------------------------

  /** The stored status of a batch that is not archived, as of `t`. */
  ghost predicate LabelledAt(b: Batch, t: Time) {
    (b.status == Expired <==> b.expiresAt <= t) &&
    (b.status == Exhausted <==> b.expiresAt > t && b.available == 0) &&
    (b.status == Active <==> b.expiresAt > t && b.available != 0)
  }

  /** A saved batch is labelled by its expiry first and its stock second; an archived one
      stays archived. */
  lemma SavedIsLabelled(s: Stock, id: Id, b: Batch, t: Time)
    ensures var b' := Save(s, id, b, t).batches[id];
            b' == b.(status := b'.status) &&
            if b.status == Archived then b'.status == Archived else LabelledAt(b', t)
  {
  }

  // ----- production ---------------------------------------------------------

  lemma CreateOutcome(s: Stock, id: Id, p: Production, t: Time)
    requires ValidProduction(p)
    ensures var o := Create(s, id, p, t);
            var used := exists x | x in s.batches :: s.batches[x].code == p.code;
            (o == Err(Invalid) <==> p.expiresAt <= t) &&
            (o == Err(BatchCodeConflict) <==> t < p.expiresAt && used) &&
            (o.Ok? <==> t < p.expiresAt && !used)
    ensures var o := Create(s, id, p, t);
            o.Ok? ==>
              var (s', b) := o.value;
              s'.batches == s.batches[id := b] && s'.reservations == s.reservations && s'.wastes == s.wastes &&
              s'.ledger == s.ledger + [Movement(id, None, Produced, p.initial, t)] &&
              b.code == p.code && b.flavor == p.flavor && b.expiresAt == p.expiresAt && b.createdAt == t &&
              b.initial == b.available == p.initial && b.reserved == b.sold == b.wasted == 0 &&
              Some(b.unitCost) == p.unitCost && b.status == Active
  {
  }

  // ----- waste --------------------------------------------------------------

  /** A waste report of any number of portions the batch has, up to the last one. */
  lemma WasteOutcome(s: Stock, id: Id, n: int, reason: WasteReason, note: string, t: Time)
    ensures var o := Discard(s, id, n, reason, note, t);
            if id !in s.batches then o == Err(NotFound) else
            var b := s.batches[id];
            (o == Err(WrongState) <==> b.status == Archived) &&
            (o == Err(Invalid) <==> b.status != Archived && reason == PastExpiry && t < b.expiresAt) &&
            (o == Err(OutOfStock) <==> b.status != Archived && (reason == PastExpiry ==> b.expiresAt <= t) && b.available < n) &&
            (o.Ok? <==> b.status != Archived && (reason == PastExpiry ==> b.expiresAt <= t) && n <= b.available)
    ensures var o := Discard(s, id, n, reason, note, t);
            o.Ok? && id in s.batches ==>
              var (s', w) := o.value;
              var b := s.batches[id];
              w == WasteRecord(id, b.flavor, n, reason, note, b.unitCost * n, t) && s'.wastes == s.wastes + [w] &&
              s'.ledger == s.ledger + [Movement(id, None, Wasted, n, t)] && s'.reservations == s.reservations &&
              id in s'.batches && s'.batches == s.batches[id := s'.batches[id]] && LabelledAt(s'.batches[id], t) &&
              s'.batches[id] == b.(available := b.available - n, wasted := b.wasted + n, status := s'.batches[id].status)
  {
  }

  // ----- batch expiry -------------------------------------------------------

  /** An expired batch ends with nothing available, everything left of it wasted and marked
      EXPIRED; any other batch is left alone. */
  lemma ExpireBatchOutcome(s: Stock, clock: Time, id: Id, t: Time)
    requires Valid(s, clock)
    ensures var o := ExpireBatch(s, id, t);
            if id !in s.batches then o == Err(NotFound) else
            var b := s.batches[id];
            o.Ok? && id in o.value.batches && o.value.reservations == s.reservations &&
            if b.status == Archived || t < b.expiresAt then o.value == s
            else
              o.value.batches == s.batches[id := b.(available := 0, wasted := b.wasted + b.available, status := Expired)] &&
              o.value.wastes == s.wastes + (if b.available == 0 then []
                                            else [WasteRecord(id, b.flavor, b.available, PastExpiry, "batch expiry", b.unitCost * b.available, t)]) &&
              o.value.ledger == s.ledger + (if b.available == 0 then [] else [Movement(id, None, Wasted, b.available, t)])
  {
    assert id in s.batches ==> BatchSound(s.batches[id]);
    assert s.wastes + [] == s.wastes && s.ledger + [] == s.ledger;
    hide Valid;
  }

  // ----- reservation --------------------------------------------------------

  /** The first of the time limit and the expiries of the batches drawn on. */
  ghost predicate IsEnd(batches: map<Id, Batch>, allocations: seq<Allocation>, limit: Time, end: Time)
    requires forall a | a in allocations :: a.batch in batches
  {
    end <= limit && (forall a | a in allocations :: end <= batches[a.batch].expiresAt) &&
    (end == limit || exists a :: a in allocations && end == batches[a.batch].expiresAt)
  }

  lemma {:induction false} LimitIsEnd(batches: map<Id, Batch>, allocations: seq<Allocation>, limit: Time)
    requires forall a | a in allocations :: a.batch in batches
    ensures IsEnd(batches, allocations, limit, HoldLimit(batches, allocations, limit))
    decreases |allocations|
  {
    if allocations != [] {
      var a := allocations[0];
      var e := batches[a.batch].expiresAt;
      var l := if e < limit then e else limit;
      LimitIsEnd(batches, allocations[1..], l);
      var end := HoldLimit(batches, allocations[1..], l);
      if end != l {
        var x :| x in allocations[1..] && end == batches[x.batch].expiresAt;
        assert x in allocations;
      } else if e < limit {
        assert a in allocations;
      }
    }
  }

  ghost function HoldEntries(allocations: seq<Allocation>, rid: Id, t: Time): seq<Movement> {
    if allocations == [] then [] else
    [Movement(allocations[0].batch, Some(rid), Reserved, allocations[0].portions, t)] + HoldEntries(allocations[1..], rid, t)
  }

  lemma {:induction false} HoldWrites(s: Stock, rid: Id, allocations: seq<Allocation>, t: Time)
    requires forall a | a in allocations :: a.batch in s.batches
    ensures Hold(s, rid, allocations, t).ledger == s.ledger + HoldEntries(allocations, rid, t)
    decreases |allocations|
  {
    if allocations == [] {
      assert s.ledger + [] == s.ledger;
    } else {
      var a := allocations[0];
      var mid := HoldOne(s, rid, a, t);
      HoldWrites(mid, rid, allocations[1..], t);
      assert s.ledger + [Movement(a.batch, Some(rid), Reserved, a.portions, t)] + HoldEntries(allocations[1..], rid, t) ==
             s.ledger + HoldEntries(allocations, rid, t);
    }
  }

  ghost predicate Taken(s: Stock, order: Id) {
    exists x :: x in s.reservations && s.reservations[x].order == order
  }

  /** The plan is held until its end, or refused when that end has already come. */
  ghost predicate HeldUntilEnd(s: Stock, order: Id, plan: seq<Allocation>, limit: Time, t: Time, current: Time,
                               o: Result<(Stock, Reservation)>)
  {
    (forall a | a in plan :: a.batch in s.batches) &&
    exists end: Time :: IsEnd(s.batches, plan, limit, end) &&
      if end <= current then o == Err(WrongState)
      else o.Ok? && o.value.1 == Reservation(order, ACTIVE, plan, t, end, "")
  }

  lemma ReserveUnfolds(s: Stock, rid: Id, order: Id, items: seq<Item>, ttl: int, t: Time, current: Time)
    ensures var o := Reserve(s, rid, order, items, ttl, t, current);
            if OrderHasHold(s, order) then o == Err(Conflict)
            else if ttl <= 0 then o == Err(Invalid)
            else if Plan(s.batches, items, t).Err? then o == Err(Plan(s.batches, items, t).error)
            else ReservesAs(s, rid, order, Plan(s.batches, items, t).value, ttl, t, current, o)
  {
    PlanUsesKnownBatches(s.batches, items, t);
  }

  ghost predicate ReservesAs(s: Stock, rid: Id, order: Id, plan: seq<Allocation>, ttl: int, t: Time, current: Time,
                             o: Result<(Stock, Reservation)>)
  {
    ttl > 0 && (forall a | a in plan :: a.batch in s.batches) &&
    var r := Reservation(order, ACTIVE, plan, t, HoldLimit(s.batches, plan, t + ttl), "");
    o == if r.expiresAt <= current then Err(WrongState)
         else Ok((Hold(s.(reservations := s.reservations[rid := r]), rid, plan, current), r))
  }

  lemma TakenMeans(s: Stock, order: Id)
    ensures Taken(s, order) <==> OrderHasHold(s, order)
  {
  }

  lemma ReserveBranches(s: Stock, rid: Id, order: Id, items: seq<Item>, ttl: int, t: Time, current: Time)
    ensures var o, plan := Reserve(s, rid, order, items, ttl, t, current), Plan(s.batches, items, t);
            if Taken(s, order) then o == Err(Conflict)
            else if ttl <= 0 then o == Err(Invalid)
            else if plan.Err? then o == Err(plan.error)
            else HeldUntilEnd(s, order, plan.value, t + ttl, t, current, o)
  {
    hide Reserve, Plan, HoldLimit, Hold, IsEnd, Taken, OrderHasHold, HeldUntilEnd;
    TakenMeans(s, order);
    ReserveUnfolds(s, rid, order, items, ttl, t, current);
    var o, plan := Reserve(s, rid, order, items, ttl, t, current), Plan(s.batches, items, t);
    if !Taken(s, order) && ttl > 0 && plan.Ok? {
      LimitIsEnd(s.batches, plan.value, t + ttl);
      EndDecides(s, order, plan.value, t + ttl, t, current, o, HoldLimit(s.batches, plan.value, t + ttl));
    }
  }

  lemma EndDecides(s: Stock, order: Id, plan: seq<Allocation>, limit: Time, t: Time, current: Time,
                   o: Result<(Stock, Reservation)>, end: Time)
    requires (forall a | a in plan :: a.batch in s.batches) && IsEnd(s.batches, plan, limit, end)
    requires if end <= current then o == Err(WrongState)
             else o.Ok? && o.value.1 == Reservation(order, ACTIVE, plan, t, end, "")
    ensures HeldUntilEnd(s, order, plan, limit, t, current, o)
  {
  }

  /** Reserve fails on a second hold of the order, without a time limit, without stock, or
      when the hold would be over at once; otherwise it holds the whole plan until the first
      of its time limit and its batches' expiries. */
  lemma ReserveOutcome(s: Stock, clock: Time, rid: Id, order: Id, items: seq<Item>, ttl: int, t: Time, current: Time)
    requires Valid(s, clock) && Fefo.ValidItems(items)
    ensures var o := Reserve(s, rid, order, items, ttl, t, current);
            if Taken(s, order) then o == Err(Conflict)
            else if ttl <= 0 then o == Err(Invalid)
            else if !Covered(s.batches, items, t) then o == Err(OutOfStock)
            else Plan(s.batches, items, t).Ok? && HeldUntilEnd(s, order, Plan(s.batches, items, t).value, t + ttl, t, current, o)
  {
    PlanExistsIffCovered(s.batches, items, t);
    hide *;
    ReserveBranches(s, rid, order, items, ttl, t, current);
  }

  /** What a reservation leaves: its row, one RESERVED movement per allocation, and for every
      batch exactly its share moved from available to reserved. */
  lemma ReserveEffect(s: Stock, clock: Time, rid: Id, order: Id, items: seq<Item>, ttl: int, t: Time, current: Time, id: Id)
    requires Valid(s, clock) && clock <= t <= current && rid !in s.reservations && items != [] && Fefo.ValidItems(items)
    requires Reserve(s, rid, order, items, ttl, t, current).Ok?
    ensures var (s', r) := Reserve(s, rid, order, items, ttl, t, current).value;
            s'.reservations == s.reservations[rid := r] && s'.wastes == s.wastes &&
            s'.ledger == s.ledger + HoldEntries(r.allocations, rid, current) && s'.batches.Keys == s.batches.Keys &&
            (id in s.batches ==>
              var b, b' := s.batches[id], s'.batches[id];
              SameBatch(b, b') && b'.available == b.available - On(r.allocations, id) &&
              b'.reserved == b.reserved + On(r.allocations, id) && b'.sold == b.sold && b'.wasted == b.wasted)
  {
    var r := Reserve(s, rid, order, items, ttl, t, current).value.1;
    ReserveSound(s, clock, rid, order, items, ttl, t, current);
    hide Valid, Plan, HoldLimit, Fefo.ValidItems;
    HoldEffect(Held0(s, rid, r), rid, r.allocations, current, id);
    HoldWrites(Held0(s, rid, r), rid, r.allocations, current);
  }

  // ----- confirm, release and return ----------------------------------------

  /** The movement a settlement writes for one allocation: what was held or sold of a batch
      past its expiry is wasted, unless it is being confirmed. */
  ghost function EntryKind(b: Batch, k: Settlement, t: Time): Kind {
    match k
    case Confirming => Confirmed
    case Releasing => if b.expiresAt <= t then Wasted else Released
    case Returning => if b.expiresAt <= t then Wasted else Returned
  }

  ghost function Entries(batches: map<Id, Batch>, allocations: seq<Allocation>, rid: Id, k: Settlement, t: Time): seq<Movement>
    requires forall a | a in allocations :: a.batch in batches
  {
    if allocations == [] then [] else
    var a := allocations[0];
    [Movement(a.batch, Some(rid), EntryKind(batches[a.batch], k, t), a.portions, t)] + Entries(batches, allocations[1..], rid, k, t)
  }

  /** The waste records that go with the wasted movements. */
  ghost function Losses(batches: map<Id, Batch>, allocations: seq<Allocation>, k: Settlement, t: Time): seq<WasteRecord>
    requires forall a | a in allocations :: a.batch in batches
  {
    if allocations == [] then [] else
    var a := allocations[0];
    var b := batches[a.batch];
    var note := if k.Returning? then "returned order after batch expiry" else "reservation expired after batch expiry";
    (if EntryKind(b, k, t) == Wasted
     then [WasteRecord(a.batch, b.flavor, a.portions, PastExpiry, note, b.unitCost * a.portions, t)] else []) +
    Losses(batches, allocations[1..], k, t)
  }

  ghost predicate SameTerms(batches: map<Id, Batch>, batches': map<Id, Batch>) {
    batches'.Keys == batches.Keys &&
    forall id | id in batches :: batches'[id].expiresAt == batches[id].expiresAt && batches'[id].flavor == batches[id].flavor &&
                                 batches'[id].unitCost == batches[id].unitCost
  }

  lemma {:induction false} EntriesSame(batches: map<Id, Batch>, batches': map<Id, Batch>, allocations: seq<Allocation>, rid: Id, k: Settlement, t: Time)
    requires SameTerms(batches, batches') && forall a | a in allocations :: a.batch in batches
    ensures Entries(batches', allocations, rid, k, t) == Entries(batches, allocations, rid, k, t)
    ensures Losses(batches', allocations, k, t) == Losses(batches, allocations, k, t)
  {
    if allocations != [] {
      EntriesSame(batches, batches', allocations[1..], rid, k, t);
    }
  }

  lemma SettleOneWrites(s: Stock, rid: Id, a: Allocation, k: Settlement, t: Time, s': Stock)
    requires SettleOne(s, rid, a, k, t) == Ok(s') && a.batch in s.batches
    ensures s'.ledger == s.ledger + Entries(s.batches, [a], rid, k, t) && s'.wastes == s.wastes + Losses(s.batches, [a], k, t)
    ensures SameTerms(s.batches, s'.batches)
  {
    OneEntry(s.batches, a, rid, k, t);
    assert s.wastes + [] == s.wastes;
    hide Entries, Losses;
  }

  lemma OneEntry(batches: map<Id, Batch>, a: Allocation, rid: Id, k: Settlement, t: Time)
    requires a.batch in batches
    ensures Entries(batches, [a], rid, k, t) == [Movement(a.batch, Some(rid), EntryKind(batches[a.batch], k, t), a.portions, t)]
    ensures var b := batches[a.batch];
            var note := if k.Returning? then "returned order after batch expiry" else "reservation expired after batch expiry";
            Losses(batches, [a], k, t) ==
              if EntryKind(b, k, t) == Wasted then [WasteRecord(a.batch, b.flavor, a.portions, PastExpiry, note, b.unitCost * a.portions, t)] else []
  {
    assert [a][1..] == [];
  }

  lemma {:induction false} SettleWrites(s: Stock, rid: Id, allocations: seq<Allocation>, k: Settlement, t: Time, s': Stock)
    requires Settle(s, rid, allocations, k, t) == Ok(s') && forall a | a in allocations :: a.batch in s.batches
    ensures s'.ledger == s.ledger + Entries(s.batches, allocations, rid, k, t)
    ensures s'.wastes == s.wastes + Losses(s.batches, allocations, k, t)
    decreases |allocations|
  {
    if allocations == [] {
      assert s.ledger + [] == s.ledger && s.wastes + [] == s.wastes;
    } else {
      var a, rest := allocations[0], allocations[1..];
      var mid := SettleStep(s, rid, allocations, k, t, s');
      hide SettleOne, Settle, Entries, Losses;
      SettleOneWrites(s, rid, a, k, t, mid);
      KnownStill(s.batches, mid.batches, allocations);
      SettleWrites(mid, rid, rest, k, t, s');
      EntriesSame(s.batches, mid.batches, rest, rid, k, t);
      WritesCons(s.batches, allocations, rid, k, t);
      Regroup(s.ledger, Entries(s.batches, [a], rid, k, t), Entries(s.batches, rest, rid, k, t));
      Regroup(s.wastes, Losses(s.batches, [a], k, t), Losses(s.batches, rest, k, t));
    }
  }

  lemma SettleStep(s: Stock, rid: Id, allocations: seq<Allocation>, k: Settlement, t: Time, s': Stock) returns (mid: Stock)
    requires Settle(s, rid, allocations, k, t) == Ok(s') && allocations != []
    ensures SettleOne(s, rid, allocations[0], k, t) == Ok(mid) && Settle(mid, rid, allocations[1..], k, t) == Ok(s')
  {
    mid := SettleOne(s, rid, allocations[0], k, t).value;
  }

  lemma KnownStill(batches: map<Id, Batch>, batches': map<Id, Batch>, allocations: seq<Allocation>)
    requires SameTerms(batches, batches') && allocations != [] && forall a | a in allocations :: a.batch in batches
    ensures allocations[0] in allocations && (forall a | a in allocations[1..] :: a.batch in batches && a.batch in batches')
  {
  }

  lemma Regroup<T>(a: seq<T>, b: seq<T>, c: seq<T>)
    ensures a + b + c == a + (b + c)
  {
  }

  lemma WritesCons(batches: map<Id, Batch>, allocations: seq<Allocation>, rid: Id, k: Settlement, t: Time)
    requires allocations != [] && forall a | a in allocations :: a.batch in batches
    ensures var a, rest := allocations[0], allocations[1..];
            Entries(batches, allocations, rid, k, t) == Entries(batches, [a], rid, k, t) + Entries(batches, rest, rid, k, t) &&
            Losses(batches, allocations, k, t) == Losses(batches, [a], k, t) + Losses(batches, rest, k, t)
  {
    assert [allocations[0]][1..] == [];
  }

  /** The balances of one batch after `n` of its portions were settled. */
  ghost predicate SettledTo(b: Batch, b': Batch, n: int, k: Settlement, t: Time) {
    SameBatch(b, b') &&
    match k
    case Confirming =>
      b'.reserved == b.reserved - n && b'.sold == b.sold + n && b'.available == b.available && b'.wasted == b.wasted
    case Releasing =>
      b'.reserved == b.reserved - n && b'.sold == b.sold &&
      (if b.expiresAt <= t then b'.wasted == b.wasted + n && b'.available == b.available
       else b'.available == b.available + n && b'.wasted == b.wasted)
    case Returning =>
      b'.sold == b.sold - n && b'.reserved == b.reserved &&
      (if b.expiresAt <= t then b'.wasted == b.wasted + n && b'.available == b.available
       else b'.available == b.available + n && b'.wasted == b.wasted)
  }

  /** What settling the reservation `rid` leaves behind, everywhere. */
  ghost predicate SettledAs(s: Stock, s': Stock, rid: Id, k: Settlement, status: HoldStatus, reason: string, t: Time)
    requires rid in s.reservations && forall a | a in s.reservations[rid].allocations :: a.batch in s.batches
  {
    var r := s.reservations[rid];
    s'.reservations == s.reservations[rid := r.(status := status, releaseReason := reason)] &&
    s'.ledger == s.ledger + Entries(s.batches, r.allocations, rid, k, t) &&
    s'.wastes == s.wastes + Losses(s.batches, r.allocations, k, t) &&
    s'.batches.Keys == s.batches.Keys &&
    forall id | id in s.batches :: SettledTo(s.batches[id], s'.batches[id], On(r.allocations, id), k, t)
  }

  lemma SettleIsExact(s: Stock, clock: Time, rid: Id, k: Settlement, status: HoldStatus, reason: string, t: Time)
    requires Valid(s, clock) && rid in s.reservations && Settle(s, rid, s.reservations[rid].allocations, k, t).Ok?
    ensures HoldSound(s, s.reservations[rid])
    ensures SettledAs(s, Close(Settle(s, rid, s.reservations[rid].allocations, k, t).value, rid, s.reservations[rid], status, reason),
                      rid, k, status, reason, t)
  {
    var r := s.reservations[rid];
    assert HoldSound(s, r);
    hide Valid;
    var s' := Settle(s, rid, r.allocations, k, t).value;
    SettleWrites(s, rid, r.allocations, k, t, s');
    SettleMoves(s, rid, r.allocations, k, t, rid, s');
    hide Settle, Entries, Losses;
    forall id | id in s.batches ensures SettledTo(s.batches[id], s'.batches[id], On(r.allocations, id), k, t) {
      SettleMoves(s, rid, r.allocations, k, t, id, s');
    }
  }

  /** How a transition is answered, and that it settles what it promises. */
  lemma TransitionOutcome(s: Stock, clock: Time, rid: Id, order: Id, reason: string, confirm: bool, expiry: bool, t: Time)
    requires Valid(s, clock) && clock <= t && NoneArchived(s) && !(confirm && expiry)
    ensures var o := Transition(s, rid, order, reason, confirm, expiry, t);
            if rid !in s.reservations || s.reservations[rid].order != order then o == Err(NotFound) else
            var r := s.reservations[rid];
            if expiry && (r.status != ACTIVE || t < r.expiresAt) then o == Ok((s, r))
            else if r.status == ACTIVE && confirm && t < r.expiresAt then SettlesTo(s, rid, Confirming, CONFIRMED, reason, t, o)
            else if r.status == ACTIVE && !confirm && !expiry && t < r.expiresAt then SettlesTo(s, rid, Releasing, RELEASED, reason, t, o)
            else if r.status == ACTIVE && !confirm then SettlesTo(s, rid, Releasing, EXPIRED, reason, t, o)
            else if r.status in (if confirm then {CONFIRMED} else {RELEASED, EXPIRED}) then o == Ok((s, r))
            else o == Err(WrongState)
  {
    if rid in s.reservations && s.reservations[rid].status == ACTIVE && !(confirm && s.reservations[rid].expiresAt <= t) {
      var r := s.reservations[rid];
      var k := if confirm then Confirming else Releasing;
      var status := if confirm then CONFIRMED else if expiry || r.expiresAt <= t then EXPIRED else RELEASED;
      assert HoldSound(s, r);
      GuardsNeverFire(s, clock, rid, k, t);
      hide Valid, Settle, SettledAs;
      SettleIsExact(s, clock, rid, k, status, reason, t);
    }
  }

  ghost predicate SettlesTo(s: Stock, rid: Id, k: Settlement, status: HoldStatus, reason: string, t: Time, o: Result<(Stock, Reservation)>)
    requires rid in s.reservations
  {
    o.Ok? && o.value.1 == s.reservations[rid].(status := status) &&
    (forall a | a in s.reservations[rid].allocations :: a.batch in s.batches) &&
    SettledAs(s, o.value.0, rid, k, status, reason, t)
  }

  lemma ReturnedOutcome(s: Stock, clock: Time, rid: Id, order: Id, reason: string, t: Time)
    requires Valid(s, clock) && clock <= t
    ensures var o := ReturnConfirmed(s, rid, order, reason, t);
            if rid !in s.reservations || s.reservations[rid].order != order then o == Err(NotFound)
            else if s.reservations[rid].status == RETURNED then o == Ok((s, s.reservations[rid]))
            else if s.reservations[rid].status == CONFIRMED then SettlesTo(s, rid, Returning, RETURNED, reason, t, o)
            else o == Err(WrongState)
  {
    if rid in s.reservations && s.reservations[rid].status == CONFIRMED {
      assert HoldSound(s, s.reservations[rid]);
      GuardsNeverFire(s, clock, rid, Returning, t);
      hide Valid, Settle, SettledAs;
      SettleIsExact(s, clock, rid, Returning, RETURNED, reason, t);
    }
  }
}
