/** Whole runs of the inventory service: what every call keeps, and what therefore
    holds after any sequence of calls. */
module InventoryRuns {
  import opened Ordering
  import opened InventoryModel
  import opened InventoryLaws
  import opened Fefo
  import opened InventoryInvariant
  import opened Idempotency
  import opened InventoryStore

  // ----- one transaction ----------------------------------------------------

  /** A reservation keeps its terms and moves only ACTIVE to CONFIRMED, RELEASED or
      EXPIRED, and CONFIRMED to RETURNED. */
  ghost predicate HoldEvolves(r: Reservation, r': Reservation) {
    r'.order == r.order && r'.allocations == r.allocations && r'.createdAt == r.createdAt &&
    r'.expiresAt == r.expiresAt &&
    (r'.status == r.status ||
      (r.status == ACTIVE && (r'.status == CONFIRMED || r'.status == RELEASED || r'.status == EXPIRED)) ||
      (r.status == CONFIRMED && r'.status == RETURNED))
  }

  ghost predicate Evolves(s: Stock, s': Stock) {
    BatchesKept(s, s') && s.ledger <= s'.ledger && s.wastes <= s'.wastes &&
    forall rid | rid in s.reservations :: rid in s'.reservations && HoldEvolves(s.reservations[rid], s'.reservations[rid])
  }

  /** Every batch that had expired by `t0` holds nothing saleable and nothing reserved, and is
      marked EXPIRED. */
  ghost predicate SweptAsOf(s: Stock, t0: Time) {
    forall id | id in s.batches :: Drained(s.batches[id], t0)
  }

  ghost predicate Drained(b: Batch, t0: Time) {
    b.expiresAt <= t0 && !b.status.Archived? ==> b.available == 0 && b.reserved == 0 && b.status == Expired
  }

  /** What had expired by `clock` is not restocked, and whatever is new is still live. */
  ghost predicate StaysSpent(s: Stock, s': Stock, id: Id)
    requires id in s'.batches
  {
    id in s.batches && (s.batches[id].available == 0 ==> s'.batches[id].available == 0) &&
    (s.batches[id].status == Expired ==> s'.batches[id].status == Expired)
  }

  ghost predicate NothingRevived(s: Stock, s': Stock, clock: Time) {
    (forall id | id in s'.batches && s'.batches[id].expiresAt <= clock :: StaysSpent(s, s', id)) &&
    (forall rid | rid in s'.reservations && s'.reservations[rid].expiresAt <= clock :: rid in s.reservations)
  }

  /** No transaction archives a batch. */
  ghost predicate NoneArchived(s: Stock) {
    forall id | id in s.batches :: !s.batches[id].status.Archived?
  }

  lemma {:induction false} SettleAppends(s: Stock, rid: Id, allocations: seq<Allocation>, k: Settlement, t: Time, s': Stock)
    requires Settle(s, rid, allocations, k, t) == Ok(s')
    ensures s.ledger <= s'.ledger && s.wastes <= s'.wastes
    decreases |allocations|
  {
    if allocations != [] {
      SettleAppends(SettleOne(s, rid, allocations[0], k, t).value, rid, allocations[1..], k, t, s');
    }
  }

  lemma SettleEvolves(s: Stock, clock: Time, rid: Id, k: Settlement, target: HoldStatus, reason: string, t: Time, s': Stock)
    requires Settling(s, clock, rid, k, target, t, s')
    ensures Evolves(s, Close(s', rid, s.reservations[rid], target, reason))
  {
    var r := s.reservations[rid];
    SettleAppends(s, rid, r.allocations, k, t, s');
    SettleMoves(s, rid, r.allocations, k, t, rid, s');
    forall id | id in s.batches ensures id in s'.batches && SameBatch(s.batches[id], s'.batches[id]) {
      SettleMoves(s, rid, r.allocations, k, t, id, s');
    }
  }

  lemma SettleRevivesNothing(s: Stock, clock: Time, rid: Id, k: Settlement, target: HoldStatus, reason: string, t: Time,
                             s': Stock, id: Id)
    requires Settling(s, clock, rid, k, target, t, s') && id in s'.batches && s'.batches[id].expiresAt <= clock
    ensures StaysSpent(s, s', id)
  {
    SettleMoves(s, rid, s.reservations[rid].allocations, k, t, id, s');
  }

  lemma HoldTransactionEvolves(s: Stock, clock: Time, rid: Id, order: Id, items: seq<Item>, ttl: int, t: Time, current: Time)
    requires Valid(s, clock) && clock <= t <= current && rid !in s.reservations
    requires items != [] && Fefo.ValidItems(items)
    requires Reserve(s, rid, order, items, ttl, t, current).Ok?
    ensures Evolves(s, Reserve(s, rid, order, items, ttl, t, current).value.0)
  {
    var (s', r) := Reserve(s, rid, order, items, ttl, t, current).value;
    ReserveSound(s, clock, rid, order, items, ttl, t, current);
    HoldEvolvesStock(s, rid, r, current);
  }

  lemma HoldEvolvesStock(s: Stock, rid: Id, r: Reservation, t: Time)
    requires rid !in s.reservations && forall a | a in r.allocations :: a.batch in s.batches
    ensures Evolves(s, Hold(Held0(s, rid, r), rid, r.allocations, t))
  {
    var s' := Hold(Held0(s, rid, r), rid, r.allocations, t);
    hide Hold;
    HoldEffect(Held0(s, rid, r), rid, r.allocations, t, rid);
    forall id | id in s.batches ensures id in s'.batches && SameBatch(s.batches[id], s'.batches[id]) {
      HoldEffect(Held0(s, rid, r), rid, r.allocations, t, id);
    }
  }

  lemma ReserveRevivesNothing(s: Stock, clock: Time, rid: Id, order: Id, items: seq<Item>, ttl: int, t: Time, current: Time, id: Id)
    requires Valid(s, clock) && clock <= t <= current && rid !in s.reservations
    requires items != [] && Fefo.ValidItems(items)
    requires Reserve(s, rid, order, items, ttl, t, current).Ok?
    ensures var s' := Reserve(s, rid, order, items, ttl, t, current).value.0;
            s'.batches.Keys == s.batches.Keys &&
            (id in s'.batches && s'.batches[id].expiresAt <= clock ==> StaysSpent(s, s', id)) &&
            s'.reservations == s.reservations[rid := Reserve(s, rid, order, items, ttl, t, current).value.1]
  {
    var r := Reserve(s, rid, order, items, ttl, t, current).value.1;
    PlanWithinStockAt(s, clock, items, t, id);
    hide Valid, Plan, HoldLimit, ValidItems;
    ReserveSound(s, clock, rid, order, items, ttl, t, current);
    HoldEffect(Held0(s, rid, r), rid, r.allocations, current, id);
    OnNonNegative(r.allocations, id);
  }

  lemma PlanWithinStockAt(s: Stock, clock: Time, items: seq<Item>, t: Time, id: Id)
    requires Valid(s, clock) && Fefo.ValidItems(items) && Plan(s.batches, items, t).Ok?
    ensures id in s.batches ==> On(Plan(s.batches, items, t).value, id) <= s.batches[id].available
  {
    if id in s.batches {
      PlanWithinStock(s, clock, items, t, id);
    }
  }

  // ----- one call -----------------------------------------------------------

  ghost predicate ValidStore(st: Store) {
    Valid(st.stock, st.clock)
  }

  lemma SortedItemsValid(items: seq<Item>)
    requires WellFormedItems(items)
    ensures SortItems(items) != [] && Fefo.ValidItems(SortItems(items))
  {
    var sorted := SortItems(items);
    assert |multiset(sorted)| == |multiset(items)|;
    forall i | 0 <= i < |sorted| ensures sorted[i].portions > 0 {
      assert sorted[i] in multiset(items);
    }
    SortApart(items);
  }

  predicate ApartFlavors(items: seq<Item>) {
    forall i, j | 0 <= i < j < |items| :: items[i].flavor != items[j].flavor
  }

  lemma {:induction false} InsertKeepsApart(x: Item, items: seq<Item>)
    requires ApartFlavors(items) && forall y | y in items :: y.flavor != x.flavor
    ensures ApartFlavors(InsertItem(x, items))
  {
    if items != [] && items[0].flavor < x.flavor {
      InsertKeepsApart(x, items[1..]);
      forall y | y in InsertItem(x, items[1..]) ensures y.flavor != items[0].flavor {
        assert y in multiset(InsertItem(x, items[1..]));
      }
    }
  }

  lemma {:induction false} SortApart(items: seq<Item>)
    requires ApartFlavors(items)
    ensures ApartFlavors(SortItems(items))
  {
    if items != [] {
      SortApart(items[1..]);
      forall y | y in SortItems(items[1..]) ensures y.flavor != items[0].flavor {
        assert y in multiset(items[1..]);
      }
      InsertKeepsApart(items[0], SortItems(items[1..]));
    }
  }

  lemma MutateStock(st: Store, keys: seq<Key>, request: Request, effect: Result<(Stock, Response)>, t: Time)
    ensures var st' := Mutate(st, keys, request, effect, t).0;
            st'.clock == t && Keeps(st.table, st'.table) &&
            (st'.stock == st.stock || (effect.Ok? && st'.stock == effect.value.0))
  {
    ServeRecords(st.stock, st.table, SortKeys(keys), request, effect);
  }

  /** What one admissible call keeps: the invariant, the history, and any sweep. */
  ghost predicate GoodStep(st: Store, st': Store) {
    ValidStore(st') && Evolves(st.stock, st'.stock) && st.clock <= st'.clock && Keeps(st.table, st'.table) &&
    (NoneArchived(st.stock) ==> NoneArchived(st'.stock)) && NothingRevived(st.stock, st'.stock, st.clock)
  }

  ghost predicate GoodEffect(s: Stock, s': Stock, clock: Time, t: Time) {
    Valid(s', t) && Evolves(s, s') && (NoneArchived(s) ==> NoneArchived(s')) && NothingRevived(s, s', clock)
  }

  lemma SameIsGood(s: Stock, clock: Time, t: Time)
    requires Valid(s, clock) && clock <= t
    ensures GoodEffect(s, s, clock, t)
  {
    ValidLater(s, clock, t);
  }

  lemma TransitionGood(s: Stock, clock: Time, rid: Id, order: Id, reason: string, confirm: bool, expiry: bool, t: Time)
    requires Valid(s, clock) && clock <= t && !(confirm && expiry)
    requires Transition(s, rid, order, reason, confirm, expiry, t).Ok?
    ensures GoodEffect(s, Transition(s, rid, order, reason, confirm, expiry, t).value.0, clock, t)
  {
    var (s', r') := Transition(s, rid, order, reason, confirm, expiry, t).value;
    if s' == s {
      SameIsGood(s, clock, t);
    } else {
      var k := if confirm then Confirming else Releasing;
      var mid := Settle(s, rid, s.reservations[rid].allocations, k, t).value;
      SettleGood(s, clock, rid, k, r'.status, reason, t, mid);
    }
  }

  lemma SettleGood(s: Stock, clock: Time, rid: Id, k: Settlement, target: HoldStatus, reason: string, t: Time, s': Stock)
    requires Settling(s, clock, rid, k, target, t, s')
    ensures GoodEffect(s, Close(s', rid, s.reservations[rid], target, reason), clock, t)
  {
    var s'' := Close(s', rid, s.reservations[rid], target, reason);
    SettlePreserves(s, clock, rid, k, target, reason, t, s');
    SettleEvolves(s, clock, rid, k, target, reason, t, s');
    SettleMoves(s, rid, s.reservations[rid].allocations, k, t, rid, s');
    forall id | id in s''.batches && s''.batches[id].expiresAt <= clock
      ensures StaysSpent(s, s'', id)
    {
      SettleRevivesNothing(s, clock, rid, k, target, reason, t, s', id);
    }
  }

  lemma ReturnGood(s: Stock, clock: Time, rid: Id, order: Id, reason: string, t: Time)
    requires Valid(s, clock) && clock <= t
    requires ReturnConfirmed(s, rid, order, reason, t).Ok?
    ensures GoodEffect(s, ReturnConfirmed(s, rid, order, reason, t).value.0, clock, t)
  {
    var r := s.reservations[rid];
    if r.status == RETURNED {
      SameIsGood(s, clock, t);
    } else {
      SettleGood(s, clock, rid, Returning, RETURNED, reason, t, Settle(s, rid, r.allocations, Returning, t).value);
    }
  }

  lemma ReserveGood(s: Stock, clock: Time, rid: Id, order: Id, items: seq<Item>, ttl: int, t: Time, current: Time)
    requires Valid(s, clock) && clock <= t <= current && rid !in s.reservations
    requires items != [] && Fefo.ValidItems(items)
    requires Reserve(s, rid, order, items, ttl, t, current).Ok?
    ensures GoodEffect(s, Reserve(s, rid, order, items, ttl, t, current).value.0, clock, current)
  {
    var (s', r) := Reserve(s, rid, order, items, ttl, t, current).value;
    ReservePreserves(s, clock, rid, order, items, ttl, t, current);
    HoldTransactionEvolves(s, clock, rid, order, items, ttl, t, current);
    ReserveSound(s, clock, rid, order, items, ttl, t, current);
    HoldEffect(Held0(s, rid, r), rid, r.allocations, current, rid);
    forall id | id in s'.batches && s'.batches[id].expiresAt <= clock
      ensures StaysSpent(s, s', id)
    {
      ReserveRevivesNothing(s, clock, rid, order, items, ttl, t, current, id);
    }
  }

  lemma DiscardGood(s: Stock, clock: Time, id: Id, n: int, reason: WasteReason, note: string, t: Time)
    requires Valid(s, clock) && clock <= t && n >= 1
    requires Discard(s, id, n, reason, note, t).Ok?
    ensures GoodEffect(s, Discard(s, id, n, reason, note, t).value.0, clock, t)
  {
    hide Valid;
    DiscardPreserves(s, clock, id, n, reason, note, t);
  }

  lemma CreateGood(s: Stock, clock: Time, id: Id, p: Production, t: Time)
    requires Valid(s, clock) && clock <= t && id !in s.batches
    requires ValidProduction(p) && Create(s, id, p, t).Ok?
    ensures GoodEffect(s, Create(s, id, p, t).value.0, clock, t)
  {
    CreatePreserves(s, clock, id, p, t);
  }

  lemma ExpireBatchGood(s: Stock, clock: Time, id: Id, t: Time)
    requires Valid(s, clock) && clock <= t
    requires ExpireBatch(s, id, t).Ok?
    ensures GoodEffect(s, ExpireBatch(s, id, t).value, clock, t)
  {
    hide Valid;
    ExpireBatchPreserves(s, clock, id, t);
  }

  lemma MutateGood(st: Store, keys: seq<Key>, request: Request, effect: Result<(Stock, Response)>, t: Time)
    requires ValidStore(st) && st.clock <= t
    requires effect.Ok? ==> GoodEffect(st.stock, effect.value.0, st.clock, t)
    ensures GoodStep(st, Mutate(st, keys, request, effect, t).0)
  {
    MutateStock(st, keys, request, effect, t);
    SameIsGood(st.stock, st.clock, t);
  }

  lemma UnkeyedGood(st: Store, effect: Result<(Stock, Response)>, t: Time)
    requires ValidStore(st) && st.clock <= t
    requires effect.Ok? ==> GoodEffect(st.stock, effect.value.0, st.clock, t)
    ensures GoodStep(st, Unkeyed(st, effect, t).0)
  {
    SameIsGood(st.stock, st.clock, t);
  }

  lemma IdleGood(st: Store)
    requires ValidStore(st)
    ensures GoodStep(st, st)
  {
  }

  lemma StepReserveGood(st: Store, ttl: int, c: Call)
    requires c.CallReserve? && ValidStore(st) && Admissible(st, c)
    ensures GoodStep(st, StepReserve(st, ttl, c).0)
  {
    if !WellFormedItems(c.items) || c.order == NIL || c.key == NIL {
      IdleGood(st);
    } else {
      var items := SortItems(c.items);
      SortedItemsValid(c.items);
      var r := Reserve(st.stock, c.rid, c.order, items, ttl, c.t, c.current);
      if r.Ok? {
        ReserveGood(st.stock, st.clock, c.rid, c.order, items, ttl, c.t, c.current);
      }
      MutateGood(st, [Key(ReserveOp, c.key)], HoldRequest(c.order, c.key, items), AsHold(c.rid, r), c.current);
    }
  }

  lemma StepTransitionGood(st: Store, c: Call)
    requires c.CallTransition? && ValidStore(st) && Admissible(st, c)
    ensures GoodStep(st, StepTransition(st, c).0)
  {
    if c.rid == NIL || c.order == NIL || c.key == NIL || !ShortText(c.reason) {
      IdleGood(st);
    } else {
      var reason := if c.confirm then "" else c.reason;
      var r := Transition(st.stock, c.rid, c.order, reason, c.confirm, false, c.t);
      if r.Ok? {
        TransitionGood(st.stock, st.clock, c.rid, c.order, reason, c.confirm, false, c.t);
      }
      MutateGood(st, [Key(if c.confirm then ConfirmOp else ReleaseOp, c.key)],
                 ChangeRequest(c.rid, c.order, c.key, reason), AsHold(c.rid, r), c.t);
    }
  }

  lemma StepReturnGood(st: Store, c: Call)
    requires c.CallReturn? && ValidStore(st) && Admissible(st, c)
    ensures GoodStep(st, StepReturn(st, c).0)
  {
    if c.rid == NIL || c.order == NIL || c.key == NIL || !ShortText(c.reason) {
      IdleGood(st);
    } else {
      var r := ReturnConfirmed(st.stock, c.rid, c.order, c.reason, c.t);
      if r.Ok? {
        ReturnGood(st.stock, st.clock, c.rid, c.order, c.reason, c.t);
      }
      MutateGood(st, [Key(ReturnOp, c.key)], ChangeRequest(c.rid, c.order, c.key, c.reason), AsHold(c.rid, r), c.t);
    }
  }

  lemma StepWasteGood(st: Store, c: Call)
    requires c.CallWaste? && ValidStore(st) && Admissible(st, c)
    ensures GoodStep(st, StepWaste(st, c).0)
  {
    if c.batch == NIL || c.actor == NIL || c.key == NIL || !(1 <= c.portions <= MAX_PORTIONS) ||
       c.why.UnknownReason? || !ShortText(c.note) {
      IdleGood(st);
    } else {
      var r := Discard(st.stock, c.batch, c.portions, c.why, c.note, c.t);
      if r.Ok? {
        DiscardGood(st.stock, st.clock, c.batch, c.portions, c.why, c.note, c.t);
      }
      MutateGood(st, WasteKeys(c.actor, c.key, c.alias),
                 DiscardRequest(c.batch, c.portions, c.why, c.note, c.key), AsWaste(r), c.t);
    }
  }

  lemma StepCreateGood(st: Store, c: Call)
    requires c.CallCreate? && ValidStore(st) && Admissible(st, c)
    ensures GoodStep(st, StepCreate(st, c).0)
  {
    if c.actor == NIL || !ValidProduction(c.production) {
      IdleGood(st);
    } else {
      var effect := if c.listed then AsBatch(c.id, Create(st.stock, c.id, c.production, c.t)) else Err(Dependency);
      if effect.Ok? {
        CreateGood(st.stock, st.clock, c.id, c.production, c.t);
      }
      if c.alias.None? {
        UnkeyedGood(st, effect, c.t);
      } else {
        MutateGood(st, [Key(CreateOp(c.actor), c.alias.value)], ProduceRequest(c.production), effect, c.t);
      }
    }
  }

  lemma StepSweepGood(st: Store, c: Call)
    requires (c.CallExpireHold? || c.CallExpireBatch?) && ValidStore(st) && Admissible(st, c)
    ensures GoodStep(st, Step(st, 1, c).0)
  {
    if c.CallExpireHold? {
      var r := Transition(st.stock, c.rid, c.order, TIMEOUT, false, true, c.t);
      if r.Ok? {
        TransitionGood(st.stock, st.clock, c.rid, c.order, TIMEOUT, false, true, c.t);
      }
      UnkeyedGood(st, AsHold(c.rid, r), c.t);
    } else {
      SameIsGood(st.stock, st.clock, c.t);
      if ExpireBatch(st.stock, c.batch, c.t).Ok? {
        ExpireBatchGood(st.stock, st.clock, c.batch, c.t);
      }
    }
  }

  /** Every admissible call, whatever its outcome, is a good step. */
  lemma StepGood(st: Store, ttl: int, c: Call)
    requires ValidStore(st) && Admissible(st, c)
    ensures GoodStep(st, Step(st, ttl, c).0)
  {
    match c
    case CallReserve(_, _, _, _, _, _) => StepReserveGood(st, ttl, c);
    case CallTransition(_, _, _, _, _, _) => StepTransitionGood(st, c);
    case CallReturn(_, _, _, _, _) => StepReturnGood(st, c);
    case CallWaste(_, _, _, _, _, _, _, _) => StepWasteGood(st, c);
    case CallCreate(_, _, _, _, _, _) => StepCreateGood(st, c);
    case CallExpireHold(_, _, _) => StepSweepGood(st, c);
    case CallExpireBatch(_, _) => StepSweepGood(st, c);
  }
}
