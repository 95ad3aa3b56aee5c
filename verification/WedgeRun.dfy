/** How a cancellation intent wedges, on the whole system: stock is produced, two
    placements of one order both hold the reservation, one gives it up because its clock
    says that it expired, the other saves the order, and the order is cancelled. */
module WedgeRun {
  import opened Ordering
  import opened InventoryModel
  import opened Fefo
  import opened Idempotency
  import opened InventoryStore
  import opened InventoryRuns
  import opened OrderRows
  import opened Saga
  import opened SagaInvariant
  import opened SagaSteps
  import opened SagaTheorems
  import opened SagaWedge
  import opened Composition

  /** One order of one item that some batch can serve; the give-up arrives at `late`. */
  datatype Story = Story(
    order: Id, key: Id, portions: int, total: int, rid: Id, other: Id, late: Time,
    actor: Id, batch: Id, production: Production, ttl: int)

  ghost predicate Real(c: Story) {
    c.order != NIL && c.key != NIL && c.rid != NIL && c.other != NIL && c.other != c.rid && c.ttl > 0 &&
    c.actor != NIL && c.batch != NIL && ValidProduction(c.production) && c.production.expiresAt > 0 &&
    1 <= c.portions <= c.production.initial
  }

  ghost function Items(c: Story): seq<Item> {
    [Item(c.production.flavor, c.portions)]
  }

  ghost function Waits(c: Story): Thread {
    AwaitHold(c.order, c.key, Items(c))
  }

  ghost function Leaves(c: Story): Thread {
    AwaitGiveUp(c.order, c.rid, HOLD_EXPIRED)
  }

  // ----- production and reservation -----------------------------------------

  ghost function Made(c: Story): Batch
    requires c.production.unitCost.Some?
  {
    var p := c.production;
    Batch(p.code, p.flavor, p.expiresAt, 0, p.initial, p.initial, 0, 0, 0, p.unitCost.value, Active)
  }

  lemma Produced(c: Story)
    requires Real(c)
    ensures var st := Step(EMPTY_STORE, c.ttl, CallCreate(c.actor, c.production, c.batch, None, true, 0)).0;
            st.stock.batches == map[c.batch := Made(c)] && st.stock.reservations == map[] && st.table == map[] && st.clock == 0
  {
    assert EMPTY_STORE.stock.batches == map[];
    assert map[][c.batch := Made(c)] == map[c.batch := Made(c)];
  }

  lemma ItemsAreWellFormed(c: Story)
    requires Real(c)
    ensures WellFormedItems(Items(c)) && SortItems(Items(c)) == Items(c) && Fefo.ValidItems(Items(c))
  {
    assert Items(c)[1..] == [];
    assert SortItems([]) == [];
  }

  lemma {:induction false} LimitLasts(batches: map<Id, Batch>, allocations: seq<Allocation>, limit: Time)
    requires forall a | a in allocations :: a.batch in batches && batches[a.batch].expiresAt > 0
    requires limit > 0
    ensures HoldLimit(batches, allocations, limit) > 0
    decreases |allocations|
  {
    if allocations != [] {
      var e := batches[allocations[0].batch].expiresAt;
      LimitLasts(batches, allocations[1..], if e < limit then e else limit);
    }
  }

  lemma StockSuffices(c: Story)
    requires Real(c)
    ensures Plan(map[c.batch := Made(c)], Items(c), 0).Ok?
  {
    var batches := map[c.batch := Made(c)];
    ItemsAreWellFormed(c);
    AvailablePick(batches, c.production.flavor, 0, c.batch);
    assert batches - {c.batch} == map[];
    PlanExistsIffCovered(batches, Items(c), 0);
  }

  lemma Reserved(c: Story, s: Stock)
    requires Real(c) && s.batches == map[c.batch := Made(c)] && s.reservations == map[]
    ensures var o := Reserve(s, c.rid, c.order, Items(c), c.ttl, 0, 0);
            o.Ok? && o.value.1.expiresAt > 0 && o.value.1.status == ACTIVE && o.value.1.order == c.order
  {
    StockSuffices(c);
    PlanUsesKnownBatches(s.batches, Items(c), 0);
    hide Plan, HoldLimit, Hold;
    LimitLasts(s.batches, Plan(s.batches, Items(c), 0).value, c.ttl);
  }

  // ----- the acts of the saga -----------------------------------------------

  /** The world once the reservation is held and nothing else has happened. */
  ghost predicate HeldIn(w: World, c: Story, hold: Reservation) {
    c.rid in w.desk.holds && w.desk.holds[c.rid] == hold && hold.order == c.order && hold.status == ACTIVE && hold.expiresAt > 0 &&
    w.desk.clock == 0 && Key(ReleaseOp, ReleaseKey(c.order)) !in w.desk.table && w.db == Db(map[], []) &&
    GotHold(c.order, c.rid, hold.expiresAt) in w.threads && Waits(c) in w.threads && c.other !in w.desk.holds &&
    Key(ReserveOp, c.key) in w.desk.table &&
    w.desk.table[Key(ReserveOp, c.key)] == Record(HoldRequest(c.order, c.key, SortItems(Items(c))), HoldResponse(c.rid, hold))
  }

  lemma AfterReserve(w: World, c: Story, hold: Reservation)
    requires Real(c) && Waits(c) in w.threads && w.desk == Desk(map[], map[], 0) && w.db == Db(map[], [])
    requires hold.order == c.order && hold.status == ACTIVE && hold.expiresAt > 0
    requires Enabled(w, DeliverReserve(Waits(c), c.rid, Ok(hold), 0))
    ensures var w' := Do(w, DeliverReserve(Waits(c), c.rid, Ok(hold), 0));
            HeldIn(w', c, hold)
  {
    ItemsAreWellFormed(c);
    hide SortItems;
    DeskServeMeaning(w.desk, Key(ReserveOp, c.key), HoldRequest(c.order, c.key, SortItems(Items(c))),
                     Answered(c.rid, DeskHold(w.desk.holds, c.rid, Ok(hold))), 0);
    assert map[][c.rid := hold] == map[c.rid := hold];
  }

  /** The second placement is answered with the same reservation. */
  lemma AfterReplay(w: World, c: Story, hold: Reservation, granted: Result<Reservation>)
    requires HeldIn(w, c, hold) && Enabled(w, DeliverReserve(Waits(c), c.other, granted, 0))
    ensures HeldIn(Do(w, DeliverReserve(Waits(c), c.other, granted, 0)), c, hold)
  {
    hide SortItems;
    DeskServeMeaning(w.desk, Key(ReserveOp, c.key), HoldRequest(c.order, c.key, SortItems(Items(c))),
                     Answered(c.other, DeskHold(w.desk.holds, c.other, granted)), 0);
  }

  lemma AfterGiveUp(w: World, c: Story, hold: Reservation)
    requires HeldIn(w, c, hold)
    ensures var got := GotHold(c.order, c.rid, hold.expiresAt);
            Enabled(w, GiveUp(got, HOLD_EXPIRED)) &&
            var w1 := Do(w, GiveUp(got, HOLD_EXPIRED));
            Enabled(w1, DeliverGiveUp(Leaves(c), c.late)) &&
            var w2 := Do(w1, DeliverGiveUp(Leaves(c), c.late));
            GivenUp(w2.desk, c.order) && w2.db == w.db && got in w2.threads
  {
    var w1 := Do(w, GiveUp(GotHold(c.order, c.rid, hold.expiresAt), HOLD_EXPIRED));
    DeskServeMeaning(w1.desk, Key(ReleaseOp, ReleaseKey(c.order)), ChangeRequest(c.rid, c.order, ReleaseKey(c.order), HOLD_EXPIRED),
                     Answered(c.rid, DeskTransition(w1.desk.holds, c.rid, c.order, HOLD_EXPIRED, false, false, c.late)), c.late);
  }

  lemma AfterCancel(w: World, c: Story, end: Time)
    requires w.db == Db(map[], []) && GotHold(c.order, c.rid, end) in w.threads && end > 0 && GivenUp(w.desk, c.order)
    ensures var save := SaveOrder(GotHold(c.order, c.rid, end), c.total, Items(c), 0);
            Enabled(w, save) && Enabled(Do(w, save), CancelOrder(c.order)) &&
            var w' := Do(Do(w, save), CancelOrder(c.order));
            c.order in w'.db.rows && w'.db.rows[c.order].status == CancelPending && GivenUp(w'.desk, c.order)
  {
    hide GivenUp;
  }

  // ----- the run of the system ----------------------------------------------

  /** A possible step keeps the system sound and is its act of the saga. */
  lemma Stepped(y: System, ttl: int, e: Composition.Event)
    requires SystemSound(y) && Possible(y, e)
    ensures SystemSound(Next(y, ttl, e)) && Enabled(View(y), ActOf(y, ttl, e)) && View(Next(y, ttl, e)) == Do(View(y), ActOf(y, ttl, e))
  {
    hide *;
    StepIsAct(y, ttl, e);
    SystemStaysSound(y, ttl, e);
  }

  ghost predicate Stocked(y: System, c: Story)
    requires c.production.unitCost.Some?
  {
    y.store.stock.batches == map[c.batch := Made(c)] && y.store.stock.reservations == map[] && y.store.table == map[] &&
    y.store.clock == 0 && y.db == Db(map[], []) && Waits(c) in y.threads
  }

  ghost function Producing(c: Story): Composition.Event {
    Background(CallCreate(c.actor, c.production, c.batch, None, true, 0))
  }

  lemma StageStock(c: Story) returns (y1: System, y2: System)
    requires Real(c)
    ensures Possible(START_SYSTEM, Producing(c)) && y1 == Next(START_SYSTEM, c.ttl, Producing(c))
    ensures var place := Local(PlaceOrder(c.order, c.key, Items(c))); Possible(y1, place) && y2 == Next(y1, c.ttl, place)
    ensures SystemSound(y2) && Stocked(y2, c)
  {
    SystemStarts();
    hide SystemSound, Step;
    Produced(c);
    Stepped(START_SYSTEM, c.ttl, Producing(c));
    y1 := Next(START_SYSTEM, c.ttl, Producing(c));
    var place := Local(PlaceOrder(c.order, c.key, Items(c)));
    Stepped(y1, c.ttl, place);
    y2 := Next(y1, c.ttl, place);
  }

  lemma StageHold(y2: System, c: Story) returns (y3: System, hold: Reservation)
    requires Real(c) && SystemSound(y2) && Stocked(y2, c)
    ensures var e := Remote(Waits(c), c.rid, 0, 0); Possible(y2, e) && y3 == Next(y2, c.ttl, e)
    ensures SystemSound(y3) && HeldIn(View(y3), c, hold)
  {
    var e := Remote(Waits(c), c.rid, 0, 0);
    ItemsAreWellFormed(c);
    Reserved(c, y2.store.stock);
    hide SystemSound, HeldIn, Do, Next, Reserve, WellFormedItems;
    Stepped(y2, c.ttl, e);
    y3 := Next(y2, c.ttl, e);
    hold := Reserve(y2.store.stock, c.rid, c.order, Items(c), c.ttl, 0, 0).value.1;
    assert ActOf(y2, c.ttl, e) == DeliverReserve(Waits(c), c.rid, Ok(hold), 0);
    AfterReserve(View(y2), c, hold);
  }

  lemma StageReplay(y3: System, c: Story, hold: Reservation) returns (y4: System)
    requires Real(c) && SystemSound(y3) && HeldIn(View(y3), c, hold)
    ensures var e := Remote(Waits(c), c.other, 0, 0); Possible(y3, e) && y4 == Next(y3, c.ttl, e)
    ensures SystemSound(y4) && HeldIn(View(y4), c, hold)
  {
    var e := Remote(Waits(c), c.other, 0, 0);
    ItemsAreWellFormed(c);
    assert Possible(y3, e);
    hide SystemSound, HeldIn, Do, Next, Reserve, WellFormedItems, Possible;
    Stepped(y3, c.ttl, e);
    y4 := Next(y3, c.ttl, e);
    var granted := Granted(Reserve(y3.store.stock, c.other, c.order, Items(c), c.ttl, 0, 0));
    assert ActOf(y3, c.ttl, e) == DeliverReserve(Waits(c), c.other, granted, 0);
    AfterReplay(View(y3), c, hold, granted);
  }

  lemma StageGiveUp(y4: System, c: Story, hold: Reservation) returns (y5: System, y6: System)
    requires Real(c) && SystemSound(y4) && HeldIn(View(y4), c, hold)
    ensures var got := GotHold(c.order, c.rid, hold.expiresAt);
            var leave, e := Local(GiveUp(got, HOLD_EXPIRED)), Remote(Leaves(c), c.other, c.late, c.late);
            Possible(y4, leave) && y5 == Next(y4, c.ttl, leave) && Possible(y5, e) && y6 == Next(y5, c.ttl, e) &&
            got in y6.threads
    ensures SystemSound(y6) && GivenUp(View(y6).desk, c.order) && y6.db == Db(map[], []) && hold.expiresAt > 0
  {
    var got := GotHold(c.order, c.rid, hold.expiresAt);
    var leave, e := Local(GiveUp(got, HOLD_EXPIRED)), Remote(Leaves(c), c.other, c.late, c.late);
    AfterGiveUp(View(y4), c, hold);
    hide SystemSound, GivenUp, DeskRelease;
    Stepped(y4, c.ttl, leave);
    y5 := Next(y4, c.ttl, leave);
    assert Possible(y5, e);
    hide Next;
    Stepped(y5, c.ttl, e);
    y6 := Next(y5, c.ttl, e);
  }

  lemma StageCancel(y6: System, c: Story, end: Time) returns (y7: System, y8: System)
    requires SystemSound(y6) && y6.db == Db(map[], []) && GotHold(c.order, c.rid, end) in y6.threads && end > 0
    requires GivenUp(View(y6).desk, c.order)
    ensures var save := Local(SaveOrder(GotHold(c.order, c.rid, end), c.total, Items(c), 0));
            Possible(y6, save) && y7 == Next(y6, c.ttl, save) &&
            Possible(y7, Local(CancelOrder(c.order))) && y8 == Next(y7, c.ttl, Local(CancelOrder(c.order)))
    ensures SystemSound(y8) && c.order in y8.db.rows && y8.db.rows[c.order].status == CancelPending && GivenUp(View(y8).desk, c.order)
  {
    var save := Local(SaveOrder(GotHold(c.order, c.rid, end), c.total, Items(c), 0));
    AfterCancel(View(y6), c, end);
    hide SystemSound, GivenUp;
    Stepped(y6, c.ttl, save);
    y7 := Next(y6, c.ttl, save);
    Stepped(y7, c.ttl, Local(CancelOrder(c.order)));
    y8 := Next(y7, c.ttl, Local(CancelOrder(c.order)));
  }

  /** For every such order the composed system has a run of eight steps that ends with a
      cancellation intent whose every release conflicts. */
  lemma WedgeHappens(c: Story) returns (systems: seq<System>, events: seq<Composition.Event>)
    requires Real(c)
    ensures IsSystemRun(systems, events, c.ttl) && |events| == 8
    ensures var y := systems[8];
            c.order in y.db.rows && y.db.rows[c.order].status == CancelPending && EveryConflict(View(y), c.order)
  {
    hide *;
    var y1, y2 := StageStock(c);
    var y3, hold := StageHold(y2, c);
    var y4 := StageReplay(y3, c, hold);
    var y5, y6 := StageGiveUp(y4, c, hold);
    var y7, y8 := StageCancel(y6, c, hold.expiresAt);
    var got := GotHold(c.order, c.rid, hold.expiresAt);
    events := [Producing(c), Local(PlaceOrder(c.order, c.key, Items(c))), Remote(Waits(c), c.rid, 0, 0),
               Remote(Waits(c), c.other, 0, 0), Local(GiveUp(got, HOLD_EXPIRED)), Remote(Leaves(c), c.other, c.late, c.late),
               Local(SaveOrder(got, c.total, Items(c), 0)), Local(CancelOrder(c.order))];
    systems := [START_SYSTEM, y1, y2, y3, y4, y5, y6, y7, y8];
    EightSteps(systems, events, c.ttl);
    SoundStore(y8);
    SameRows(y8);
    EveryReleaseConflicts(View(y8), c.order);
  }

  lemma SameRows(y: System)
    ensures View(y).db == y.db
  {
  }

  lemma EightSteps(systems: seq<System>, events: seq<Composition.Event>, ttl: int)
    requires |systems| == 9 && |events| == 8 && systems[0] == START_SYSTEM
    requires Possible(systems[0], events[0]) && systems[1] == Next(systems[0], ttl, events[0])
    requires Possible(systems[1], events[1]) && systems[2] == Next(systems[1], ttl, events[1])
    requires Possible(systems[2], events[2]) && systems[3] == Next(systems[2], ttl, events[2])
    requires Possible(systems[3], events[3]) && systems[4] == Next(systems[3], ttl, events[3])
    requires Possible(systems[4], events[4]) && systems[5] == Next(systems[4], ttl, events[4])
    requires Possible(systems[5], events[5]) && systems[6] == Next(systems[5], ttl, events[5])
    requires Possible(systems[6], events[6]) && systems[7] == Next(systems[6], ttl, events[6])
    requires Possible(systems[7], events[7]) && systems[8] == Next(systems[7], ttl, events[7])
    ensures IsSystemRun(systems, events, ttl)
  {
    hide Possible, Next;
  }
}
