/** The order saga over the real inventory: every step of the composed system, with its
    batches, ledger and settlement loops, is one act of the saga. */
module Composition {
  import opened Ordering
  import opened InventoryModel
  import opened InventoryLaws
  import opened Fefo
  import opened InventoryInvariant
  import opened Idempotency
  import opened InventoryStore
  import opened InventoryRuns
  import opened OrderRows
  import opened Saga
  import opened SagaInvariant
  import opened SagaSteps
  import opened SagaTheorems

  // ----- the composed system ------------------------------------------------

  datatype System = System(store: Store, db: Db, threads: set<Thread>, rejected: set<Id>)

  function Project(st: Store): Desk {
    Desk(st.stock.reservations, st.table, st.clock)
  }

  function View(y: System): World {
    World(Project(y.store), y.db, y.threads, y.rejected)
  }

  /** What the surroundings supply to a step: fresh ids and clock readings. */
  datatype Event =
    | Local(a: Act)  // an act inside the order service
    | Remote(th: Thread, rid: Id, t: Time, current: Time)  // Inventory serves a request sent
    | Background(c: Call)  // production, waste, or the sweeper

  function CallFor(th: Thread, rid: Id, t: Time, current: Time): Call
    requires th.AwaitHold? || th.AwaitGiveUp? || th.AwaitConfirm? || th.AwaitRelease? || th.AwaitReturn?
  {
    match th
    case AwaitHold(order, key, items) => CallReserve(order, key, items, rid, t, current)
    case AwaitGiveUp(order, held, why) => CallTransition(false, held, order, ReleaseKey(order), why, t)
    case AwaitConfirm(row) => CallTransition(true, row.reservation, row.id, ConfirmKey(row.id), "", t)
    case AwaitRelease(row) => CallTransition(false, row.reservation, row.id, ReleaseKey(row.id), ReasonText(row.reason), t)
    case AwaitReturn(row) => CallReturn(row.reservation, row.id, ReturnKey(row.id), STORE_CANCELLED, t)
  }

  /** The point an execution reaches when the answer to its request arrives. */
  function Heard(th: Thread, answer: Result<Response>): set<Thread> {
    match th
    case AwaitHold(order, _, _) =>
      if answer.Ok? && answer.value.HoldResponse? && answer.value.hold.status == ACTIVE
      then {GotHold(order, answer.value.id, answer.value.hold.expiresAt)} else {}
    case AwaitConfirm(row) =>
      if answer.Ok? then {GotConfirm(row)} else if answer.error == WrongState then {GotRefusal(row.id)} else {}
    case AwaitRelease(row) => if answer.Ok? then {GotRelease(row)} else {}
    case AwaitReturn(row) => if answer.Ok? then {GotReturn(row)} else {}
    case _ => {}
  }

  predicate Waiting(th: Thread) {
    th.AwaitHold? || th.AwaitGiveUp? || th.AwaitConfirm? || th.AwaitRelease? || th.AwaitReturn?
  }

  predicate IsLocal(a: Act) {
    !(a.DeliverReserve? || a.DeliverGiveUp? || a.DeliverConfirm? || a.DeliverRelease? || a.DeliverReturn? ||
      a.SweepHold? || a.OtherInventory?)
  }

  predicate Possible(y: System, e: Event) {
    match e
    case Local(a) => IsLocal(a) && Enabled(View(y), a)
    case Remote(th, rid, t, current) => th in y.threads && Waiting(th) && Admissible(y.store, CallFor(th, rid, t, current))
    case Background(c) =>
      (c.CallWaste? || c.CallCreate? || c.CallExpireHold? || c.CallExpireBatch?) && Admissible(y.store, c)
  }

  function Next(y: System, ttl: int, e: Event): System
    requires Possible(y, e)
  {
    match e
    case Local(a) =>
      var w := Do(View(y), a);
      System(y.store, w.db, w.threads, w.rejected)
    case Remote(th, rid, t, current) =>
      var (st, answer) := Step(y.store, ttl, CallFor(th, rid, t, current));
      y.(store := st, threads := y.threads + Heard(th, answer))
    case Background(c) => y.(store := Step(y.store, ttl, c).0)
  }

  const START_SYSTEM := System(EMPTY_STORE, Db(map[], []), {}, {})

  ghost predicate IsSystemRun(systems: seq<System>, events: seq<Event>, ttl: int) {
    |systems| == |events| + 1 && systems[0] == START_SYSTEM &&
    forall i | 0 <= i < |events| :: Possible(systems[i], events[i]) && systems[i + 1] == Next(systems[i], ttl, events[i])
  }

  // ----- what the desk leaves out does not matter ---------------------------

  /** The desk effect of a stock effect: the same answer, over the reservations alone. */
  ghost predicate Shadows(effect: Result<(Stock, Response)>, desk: Result<(Holds, Response)>) {
    match (effect, desk)
    case (Err(e), Err(f)) => e == f
    case (Ok((s, v)), Ok((holds, u))) => s.reservations == holds && v == u
    case _ => false
  }

  lemma MutateProjects(st: Store, key: Key, request: Request, effect: Result<(Stock, Response)>,
                       desk: Result<(Holds, Response)>, t: Time)
    requires Shadows(effect, desk)
    ensures var (st', answer) := Mutate(st, [key], request, effect, t);
            (Project(st'), answer) == DeskServe(Project(st), key, request, desk, t)
  {
    assert SortKeys([key]) == [key];
  }

  lemma SettleLeavesHolds(s: Stock, rid: Id, allocations: seq<Allocation>, k: Settlement, t: Time, s': Stock)
    requires Settle(s, rid, allocations, k, t) == Ok(s')
    ensures s'.reservations == s.reservations
  {
    SettleMoves(s, rid, allocations, k, t, 0, s');
  }

  /** Under the stock invariant the settlement loop never fails, so a transition is decided
      by the reservation alone. */
  lemma TransitionProjects(s: Stock, clock: Time, rid: Id, order: Id, reason: string, confirm: bool, expiry: bool, t: Time)
    requires Valid(s, clock) && clock <= t && NoneArchived(s) && !(confirm && expiry)
    ensures Shadows(AsHold(rid, Transition(s, rid, order, reason, confirm, expiry, t)),
                    Answered(rid, DeskTransition(s.reservations, rid, order, reason, confirm, expiry, t)))
  {
    if rid in s.reservations && s.reservations[rid].status == ACTIVE && !(confirm && s.reservations[rid].expiresAt <= t) {
      var r := s.reservations[rid];
      var k := if confirm then Confirming else Releasing;
      assert HoldSound(s, r);
      GuardsNeverFire(s, clock, rid, k, t);
      hide Valid, Settle;
      SettleLeavesHolds(s, rid, r.allocations, k, t, Settle(s, rid, r.allocations, k, t).value);
    }
  }

  lemma ReturnProjects(s: Stock, clock: Time, rid: Id, order: Id, reason: string, t: Time)
    requires Valid(s, clock) && clock <= t
    ensures Shadows(AsHold(rid, ReturnConfirmed(s, rid, order, reason, t)),
                    Answered(rid, DeskReturn(s.reservations, rid, order, reason, t)))
  {
    hide Valid, Settle;
    if rid in s.reservations && s.reservations[rid].status == CONFIRMED {
      var r := s.reservations[rid];
      GuardsNeverFire(s, clock, rid, Returning, t);
      SettleLeavesHolds(s, rid, r.allocations, Returning, t, Settle(s, rid, r.allocations, Returning, t).value);
    }
  }

  ghost function Granted(r: Result<(Stock, Reservation)>): Result<Reservation> {
    match r
    case Ok((_, hold)) => Ok(hold)
    case Err(e) => Err(e)
  }

  lemma ReserveProjects(s: Stock, rid: Id, order: Id, items: seq<Item>, ttl: int, t: Time, current: Time)
    ensures var granted := Granted(Reserve(s, rid, order, items, ttl, t, current));
            Shadows(AsHold(rid, Reserve(s, rid, order, items, ttl, t, current)),
                    Answered(rid, DeskHold(s.reservations, rid, granted))) &&
            (granted.Ok? ==> Grantable(s.reservations, order, granted.value))
  {
    var o := Reserve(s, rid, order, items, ttl, t, current);
    if o.Ok? {
      var r := o.value.1;
      PlanUsesKnownBatches(s.batches, items, t);
      HoldEffect(s.(reservations := s.reservations[rid := r]), rid, r.allocations, current, 0);
    }
  }

  // ----- one step of the system is one act of the saga ----------------------

  ghost predicate NoNil(holds: Holds) {
    forall x | x in holds :: x != NIL && holds[x].order != NIL
  }

  ghost predicate SystemSound(y: System) {
    Inv(View(y)) && ValidStore(y.store) && NoneArchived(y.store.stock) && NoNil(y.store.stock.reservations)
  }

  ghost function News(st: Store, st': Store): Table {
    map k | k in st'.table && k !in st.table :: st'.table[k]
  }

  ghost function Idle(st: Store, st': Store): Act {
    OtherInventory(News(st, st'), st'.clock)
  }

  ghost function ActOf(y: System, ttl: int, e: Event): Act
    requires Possible(y, e)
  {
    match e
    case Local(a) => a
    case Remote(th, rid, t, current) => (
      match th
      case AwaitHold(order, key, items) =>
        if !WellFormedItems(items) || order == NIL || key == NIL then Idle(y.store, y.store)
        else DeliverReserve(th, rid, Granted(Reserve(y.store.stock, rid, order, SortItems(items), ttl, t, current)), current)
      case AwaitGiveUp(_, _, _) => DeliverGiveUp(th, t)
      case AwaitConfirm(_) => DeliverConfirm(th, t)
      case AwaitRelease(_) => DeliverRelease(th, t)
      case _ => DeliverReturn(th, t))
    case Background(c) =>
      if c.CallExpireHold? && c.rid in y.store.stock.reservations && y.store.stock.reservations[c.rid].order == c.order
      then SweepHold(c.rid, c.t)
      else Idle(y.store, Step(y.store, ttl, c).0)
  }

  lemma LocalIsAct(y: System, ttl: int, a: Act)
    requires Possible(y, Local(a))
    ensures View(Next(y, ttl, Local(a))) == Do(View(y), a)
  {
    hide DeskReserve, DeskConfirm, DeskRelease, DeskGiveBack, DeskTransition;
  }

  lemma TransitionIsDesk(st: Store, confirm: bool, rid: Id, order: Id, key: Id, reason: string, t: Time)
    requires ValidStore(st) && NoneArchived(st.stock) && st.clock <= t
    requires rid != NIL && order != NIL && key != NIL && ShortText(reason) && (confirm ==> reason == "")
    ensures var (st', answer) := StepTransition(st, CallTransition(confirm, rid, order, key, reason, t));
            (Project(st'), answer) ==
              DeskServe(Project(st), Key(if confirm then ConfirmOp else ReleaseOp, key), ChangeRequest(rid, order, key, reason),
                        Answered(rid, DeskTransition(st.stock.reservations, rid, order, reason, confirm, false, t)), t)
  {
    hide Valid, NoneArchived, Transition, DeskTransition, Mutate, DeskServe;
    TransitionProjects(st.stock, st.clock, rid, order, reason, confirm, false, t);
    MutateProjects(st, Key(if confirm then ConfirmOp else ReleaseOp, key), ChangeRequest(rid, order, key, reason),
                   AsHold(rid, Transition(st.stock, rid, order, reason, confirm, false, t)),
                   Answered(rid, DeskTransition(st.stock.reservations, rid, order, reason, confirm, false, t)), t);
  }

  lemma ReturnIsDesk(st: Store, rid: Id, order: Id, t: Time)
    requires ValidStore(st) && st.clock <= t && rid != NIL && order != NIL
    ensures var (st', answer) := StepReturn(st, CallReturn(rid, order, ReturnKey(order), STORE_CANCELLED, t));
            (Project(st'), answer) == DeskGiveBack(Project(st), order, rid, t)
  {
    hide Valid, ReturnConfirmed, DeskReturn, Mutate, DeskServe;
    ReturnProjects(st.stock, st.clock, rid, order, STORE_CANCELLED, t);
    MutateProjects(st, Key(ReturnOp, ReturnKey(order)), ChangeRequest(rid, order, ReturnKey(order), STORE_CANCELLED),
                   AsHold(rid, ReturnConfirmed(st.stock, rid, order, STORE_CANCELLED, t)),
                   Answered(rid, DeskReturn(st.stock.reservations, rid, order, STORE_CANCELLED, t)), t);
  }

  lemma ReserveIsDesk(st: Store, ttl: int, order: Id, key: Id, items: seq<Item>, rid: Id, t: Time, current: Time)
    requires WellFormedItems(items) && order != NIL && key != NIL
    ensures var (st', answer) := StepReserve(st, ttl, CallReserve(order, key, items, rid, t, current));
            var granted := Granted(Reserve(st.stock, rid, order, SortItems(items), ttl, t, current));
            (Project(st'), answer) == DeskReserve(Project(st), order, key, items, rid, granted, current) &&
            (granted.Ok? ==> Grantable(st.stock.reservations, order, granted.value))
  {
    hide Reserve, Mutate, DeskServe, SortItems, WellFormedItems, Grantable;
    var sorted := SortItems(items);
    ReserveProjects(st.stock, rid, order, sorted, ttl, t, current);
    var effect := Reserve(st.stock, rid, order, sorted, ttl, t, current);
    MutateProjects(st, Key(ReserveOp, key), HoldRequest(order, key, sorted), AsHold(rid, effect),
                   Answered(rid, DeskHold(st.stock.reservations, rid, Granted(effect))), current);
  }

  lemma WaitingIsHeld(y: System, th: Thread)
    requires SystemSound(y) && th in y.threads
    ensures th.AwaitConfirm? || th.AwaitRelease? || th.AwaitReturn? ==> th.row.reservation != NIL && th.row.id != NIL
    ensures th.AwaitGiveUp? ==> th.rid != NIL && th.order != NIL && (th.why == RESPONSE_INVALID || th.why == HOLD_EXPIRED)
    ensures th.AwaitHold? ==> th.order != NIL
  {
    hide Inv, ValidStore, NoneArchived;
    InvThread(View(y), th);
  }

  lemma ReasonsAreShort(reason: Reason)
    ensures ShortText(ReasonText(reason)) && ShortText("") && ShortText(RESPONSE_INVALID) && ShortText(HOLD_EXPIRED)
  {
  }

  ghost predicate ServedAsActed(y: System, ttl: int, th: Thread, rid: Id, t: Time, current: Time)
    requires Possible(y, Remote(th, rid, t, current))
  {
    var e := Remote(th, rid, t, current);
    var a := ActOf(y, ttl, e);
    Enabled(View(y), a) && View(Next(y, ttl, e)) == Do(View(y), a)
  }

  /** The world after Inventory moved to `d` and answered the request of `th`. */
  ghost function After(w: World, th: Thread, d: Desk, answer: Result<Response>): World {
    World(d, w.db, w.threads + Heard(th, answer), w.rejected)
  }

  lemma RemoteMeans(y: System, ttl: int, th: Thread, rid: Id, t: Time, current: Time)
    requires Possible(y, Remote(th, rid, t, current))
    ensures var (st, answer) := Step(y.store, ttl, CallFor(th, rid, t, current));
            View(Next(y, ttl, Remote(th, rid, t, current))) == After(View(y), th, Project(st), answer)
  {
    hide Step, Heard, Do;
  }

  lemma ReserveMeans(w: World, th: Thread, rid: Id, granted: Result<Reservation>, t: Time)
    requires Enabled(w, DeliverReserve(th, rid, granted, t))
    ensures var (d, answer) := DeskReserve(w.desk, th.order, th.key, th.items, rid, granted, t);
            Do(w, DeliverReserve(th, rid, granted, t)) == After(w, th, d, answer)
  {
    hide DeskReserve;
  }

  lemma GiveUpMeans(w: World, th: Thread, t: Time)
    requires Enabled(w, DeliverGiveUp(th, t))
    ensures var (d, answer) := DeskRelease(w.desk, th.order, th.rid, th.why, t);
            Do(w, DeliverGiveUp(th, t)) == After(w, th, d, answer)
  {
    hide DeskRelease;
  }

  lemma ConfirmMeans(w: World, th: Thread, t: Time)
    requires Enabled(w, DeliverConfirm(th, t))
    ensures var (d, answer) := DeskConfirm(w.desk, th.row.id, th.row.reservation, t);
            Do(w, DeliverConfirm(th, t)) == After(w, th, d, answer)
  {
    hide DeskConfirm;
  }

  lemma ReleaseMeans(w: World, th: Thread, t: Time)
    requires Enabled(w, DeliverRelease(th, t))
    ensures var (d, answer) := DeskRelease(w.desk, th.row.id, th.row.reservation, ReasonText(th.row.reason), t);
            Do(w, DeliverRelease(th, t)) == After(w, th, d, answer)
  {
    hide DeskRelease, ReasonText;
  }

  lemma ReturnMeans(w: World, th: Thread, t: Time)
    requires Enabled(w, DeliverReturn(th, t))
    ensures var (d, answer) := DeskGiveBack(w.desk, th.row.id, th.row.reservation, t);
            Do(w, DeliverReturn(th, t)) == After(w, th, d, answer)
  {
    hide DeskGiveBack;
  }

  lemma SoundStore(y: System)
    requires SystemSound(y)
    ensures ValidStore(y.store) && NoneArchived(y.store.stock) && Inv(View(y))
  {
  }

  lemma HoldIsAct(y: System, ttl: int, th: Thread, rid: Id, t: Time, current: Time)
    requires SystemSound(y) && Possible(y, Remote(th, rid, t, current)) && th.AwaitHold?
    ensures ServedAsActed(y, ttl, th, rid, t, current)
  {
    WaitingIsHeld(y, th);
    SoundStore(y);
    RemoteMeans(y, ttl, th, rid, t, current);
    hide SystemSound, ValidStore, NoneArchived, DeskServe, DeskTransition, DeskReturn, DeskHold, StepTransition, StepReturn,
         StepReserve, WellFormedItems, ShortText, SortItems, Reserve, Grantable, Next, Do, After, Serve, ReasonText;
    if WellFormedItems(th.items) && th.order != NIL && th.key != NIL {
      ReserveIsDesk(y.store, ttl, th.order, th.key, th.items, rid, t, current);
      ReserveMeans(View(y), th, rid, Granted(Reserve(y.store.stock, rid, th.order, SortItems(th.items), ttl, t, current)), current);
    } else {
      BystanderIsIdle(y, y.store);
      MalformedIsIdle(y.store, ttl, CallFor(th, rid, t, current));
    }
  }

  lemma MalformedIsIdle(st: Store, ttl: int, c: Call)
    requires c.CallReserve? && (!WellFormedItems(c.items) || c.order == NIL || c.key == NIL)
    ensures StepReserve(st, ttl, c) == (st, Err(Invalid)) && News(st, st) == map[] && st.table + map[] == st.table
  {
  }

  lemma GiveUpIsAct(y: System, ttl: int, th: Thread, rid: Id, t: Time, current: Time)
    requires SystemSound(y) && Possible(y, Remote(th, rid, t, current)) && th.AwaitGiveUp?
    ensures ServedAsActed(y, ttl, th, rid, t, current)
  {
    WaitingIsHeld(y, th);
    SoundStore(y);
    RemoteMeans(y, ttl, th, rid, t, current);
    hide SystemSound, ValidStore, NoneArchived, DeskServe, DeskTransition, DeskReturn, DeskHold, StepTransition, StepReturn,
         StepReserve, WellFormedItems, ShortText, SortItems, Reserve, Grantable, Next, Do, After, Serve, ReasonText;
    ReasonsAreShort(NoReason);
    TransitionIsDesk(y.store, false, th.rid, th.order, ReleaseKey(th.order), th.why, t);
    GiveUpMeans(View(y), th, t);
  }

  lemma ConfirmIsAct(y: System, ttl: int, th: Thread, rid: Id, t: Time, current: Time)
    requires SystemSound(y) && Possible(y, Remote(th, rid, t, current)) && th.AwaitConfirm?
    ensures ServedAsActed(y, ttl, th, rid, t, current)
  {
    WaitingIsHeld(y, th);
    SoundStore(y);
    RemoteMeans(y, ttl, th, rid, t, current);
    hide SystemSound, ValidStore, NoneArchived, DeskServe, DeskTransition, DeskReturn, DeskHold, StepTransition, StepReturn,
         StepReserve, WellFormedItems, ShortText, SortItems, Reserve, Grantable, Next, Do, After, Serve, ReasonText;
    ReasonsAreShort(NoReason);
    TransitionIsDesk(y.store, true, th.row.reservation, th.row.id, ConfirmKey(th.row.id), "", t);
    ConfirmMeans(View(y), th, t);
  }

  lemma ReleaseCall(y: System, ttl: int, th: Thread, rid: Id, t: Time, current: Time)
    requires SystemSound(y) && Possible(y, Remote(th, rid, t, current)) && th.AwaitRelease?
    ensures var (st, answer) := Step(y.store, ttl, CallFor(th, rid, t, current));
            (Project(st), answer) == DeskRelease(Project(y.store), th.row.id, th.row.reservation, ReasonText(th.row.reason), t)
  {
    WaitingIsHeld(y, th);
    SoundStore(y);
    hide SystemSound, ValidStore, NoneArchived, DeskServe, DeskTransition, DeskReturn, StepTransition, StepReturn, ReasonText, ShortText;
    ReasonsAreShort(th.row.reason);
    TransitionIsDesk(y.store, false, th.row.reservation, th.row.id, ReleaseKey(th.row.id), ReasonText(th.row.reason), t);
  }

  lemma ReleaseIsAct(y: System, ttl: int, th: Thread, rid: Id, t: Time, current: Time)
    requires SystemSound(y) && Possible(y, Remote(th, rid, t, current)) && th.AwaitRelease?
    ensures ServedAsActed(y, ttl, th, rid, t, current)
  {
    hide SystemSound, Step, Next, Do, After, DeskRelease, DeskGiveBack, ReasonText;
    ReleaseCall(y, ttl, th, rid, t, current);
    RemoteMeans(y, ttl, th, rid, t, current);
    ReleaseMeans(View(y), th, t);
  }

  lemma ReturnCall(y: System, ttl: int, th: Thread, rid: Id, t: Time, current: Time)
    requires SystemSound(y) && Possible(y, Remote(th, rid, t, current)) && th.AwaitReturn?
    ensures var (st, answer) := Step(y.store, ttl, CallFor(th, rid, t, current));
            (Project(st), answer) == DeskGiveBack(Project(y.store), th.row.id, th.row.reservation, t)
  {
    WaitingIsHeld(y, th);
    SoundStore(y);
    hide SystemSound, ValidStore, NoneArchived, DeskServe, DeskTransition, DeskReturn, StepTransition, StepReturn, ReasonText, ShortText;
    ReturnIsDesk(y.store, th.row.reservation, th.row.id, t);
  }

  lemma ReturnIsAct(y: System, ttl: int, th: Thread, rid: Id, t: Time, current: Time)
    requires SystemSound(y) && Possible(y, Remote(th, rid, t, current)) && th.AwaitReturn?
    ensures ServedAsActed(y, ttl, th, rid, t, current)
  {
    hide SystemSound, Step, Next, Do, After, DeskRelease, DeskGiveBack, ReasonText;
    ReturnCall(y, ttl, th, rid, t, current);
    RemoteMeans(y, ttl, th, rid, t, current);
    ReturnMeans(View(y), th, t);
  }

  // ----- the rest of the inventory ------------------------------------------

  /** No reservation changes and only records of other operations are added. */
  ghost predicate Bystander(st: Store, st': Store) {
    st'.stock.reservations == st.stock.reservations && st.clock <= st'.clock && Keeps(st.table, st'.table) &&
    forall k | k in st'.table && k !in st.table :: k.op.CreateOp? || k.op.RestWasteOp? || k.op.WasteOp?
  }

  lemma BystanderIsIdle(y: System, st': Store)
    requires Bystander(y.store, st')
    ensures Enabled(View(y), Idle(y.store, st')) && View(y.(store := st')) == Do(View(y), Idle(y.store, st'))
  {
    assert st'.table == y.store.table + News(y.store, st');
  }

  lemma MutateBystands(st: Store, keys: seq<Key>, request: Request, effect: Result<(Stock, Response)>, t: Time)
    requires st.clock <= t && (effect.Ok? ==> effect.value.0.reservations == st.stock.reservations)
    requires forall k | k in keys :: k.op.CreateOp? || k.op.RestWasteOp? || k.op.WasteOp?
    ensures Bystander(st, Mutate(st, keys, request, effect, t).0)
  {
    ServeRecords(st.stock, st.table, SortKeys(keys), request, effect);
  }

  lemma BackgroundBystands(st: Store, ttl: int, c: Call)
    requires Admissible(st, c) && (c.CallWaste? || c.CallCreate? || c.CallExpireBatch?)
    ensures Bystander(st, Step(st, ttl, c).0)
  {
    match c
    case CallWaste(batch, actor, portions, why, note, key, alias, t) =>
      MutateBystands(st, WasteKeys(actor, key, alias), DiscardRequest(batch, portions, why, note, key),
                     AsWaste(Discard(st.stock, batch, portions, why, note, t)), t);
    case CallCreate(actor, production, id, alias, listed, t) =>
      if ValidProduction(production) && alias.Some? {
        var effect := if listed then AsBatch(id, Create(st.stock, id, production, t)) else Err(Dependency);
        MutateBystands(st, [Key(CreateOp(actor), alias.value)], ProduceRequest(production), effect, t);
      }
    case _ =>
  }

  lemma SweepIsAct(y: System, ttl: int, rid: Id, order: Id, t: Time)
    requires SystemSound(y) && Possible(y, Background(CallExpireHold(rid, order, t)))
    ensures var e := Background(CallExpireHold(rid, order, t)); var a := ActOf(y, ttl, e);
            Enabled(View(y), a) && View(Next(y, ttl, e)) == Do(View(y), a)
  {
    SoundStore(y);
    var s := y.store.stock;
    hide SystemSound, Valid, NoneArchived;
    TransitionProjects(s, y.store.clock, rid, order, TIMEOUT, false, true, t);
    if !(rid in s.reservations && s.reservations[rid].order == order) {
      BystanderIsIdle(y, Step(y.store, ttl, CallExpireHold(rid, order, t)).0);
    }
  }

  /** Refinement: each step of the composed system is one enabled act of the saga. */
  lemma StepIsAct(y: System, ttl: int, e: Event)
    requires SystemSound(y) && Possible(y, e)
    ensures Enabled(View(y), ActOf(y, ttl, e)) && View(Next(y, ttl, e)) == Do(View(y), ActOf(y, ttl, e))
  {
    match e
    case Local(a) => LocalIsAct(y, ttl, a);
    case Remote(th, rid, t, current) =>
      RemoteIsAct(y, ttl, th, rid, t, current);
    case Background(c) =>
      hide SystemSound, Step, Do, Enabled;
      if c.CallExpireHold? {
        SweepIsAct(y, ttl, c.rid, c.order, c.t);
      } else {
        BackgroundBystands(y.store, ttl, c);
        BystanderIsIdle(y, Step(y.store, ttl, c).0);
      }
  }

  lemma RemoteIsAct(y: System, ttl: int, th: Thread, rid: Id, t: Time, current: Time)
    requires SystemSound(y) && Possible(y, Remote(th, rid, t, current))
    ensures ServedAsActed(y, ttl, th, rid, t, current)
  {
    hide SystemSound, ServedAsActed;
    match th
    case AwaitHold(_, _, _) => HoldIsAct(y, ttl, th, rid, t, current);
    case AwaitGiveUp(_, _, _) => GiveUpIsAct(y, ttl, th, rid, t, current);
    case AwaitConfirm(_) => ConfirmIsAct(y, ttl, th, rid, t, current);
    case AwaitRelease(_) => ReleaseIsAct(y, ttl, th, rid, t, current);
    case AwaitReturn(_) => ReturnIsAct(y, ttl, th, rid, t, current);
  }

  // ----- runs ---------------------------------------------------------------

  lemma ReservesKeepNil(st: Store, ttl: int, c: Call)
    requires Admissible(st, c) && NoNil(st.stock.reservations) && c.CallReserve?
    ensures NoNil(Step(st, ttl, c).0.stock.reservations)
  {
    if WellFormedItems(c.items) && c.order != NIL && c.key != NIL {
      ReserveIsDesk(st, ttl, c.order, c.key, c.items, c.rid, c.t, c.current);
      var granted := Granted(Reserve(st.stock, c.rid, c.order, SortItems(c.items), ttl, c.t, c.current));
      hide Reserve, StepReserve;
      DeskServeMeaning(Project(st), Key(ReserveOp, c.key), HoldRequest(c.order, c.key, SortItems(c.items)),
                       Answered(c.rid, DeskHold(st.stock.reservations, c.rid, granted)), c.current);
    }
  }

  lemma SettlesKeepNil(s: Stock, rid: Id, order: Id, reason: string, confirm: bool, expiry: bool, t: Time)
    requires NoNil(s.reservations)
    ensures var o := Transition(s, rid, order, reason, confirm, expiry, t);
            o.Ok? ==> NoNil(o.value.0.reservations)
    ensures var o := ReturnConfirmed(s, rid, order, reason, t);
            o.Ok? ==> NoNil(o.value.0.reservations)
  {
    hide Settle;
    if rid in s.reservations {
      forall k, s' | Settle(s, rid, s.reservations[rid].allocations, k, t) == Ok(s') ensures s'.reservations == s.reservations {
        SettleLeavesHolds(s, rid, s.reservations[rid].allocations, k, t, s');
      }
    }
  }

  lemma StepsKeepNil(st: Store, ttl: int, c: Call)
    requires Admissible(st, c) && NoNil(st.stock.reservations)
    ensures NoNil(Step(st, ttl, c).0.stock.reservations)
  {
    hide NoNil, Transition, ReturnConfirmed, Mutate;
    match c
    case CallReserve(_, _, _, _, _, _) => ReservesKeepNil(st, ttl, c);
    case CallTransition(confirm, rid, order, key, reason, t) =>
      var why := if confirm then "" else reason;
      SettlesKeepNil(st.stock, rid, order, why, confirm, false, t);
      MutateStock(st, [Key(if confirm then ConfirmOp else ReleaseOp, key)], ChangeRequest(rid, order, key, why),
                  AsHold(rid, Transition(st.stock, rid, order, why, confirm, false, t)), t);
    case CallReturn(rid, order, key, reason, t) =>
      SettlesKeepNil(st.stock, rid, order, reason, false, false, t);
      MutateStock(st, [Key(ReturnOp, key)], ChangeRequest(rid, order, key, reason),
                  AsHold(rid, ReturnConfirmed(st.stock, rid, order, reason, t)), t);
    case CallExpireHold(rid, order, t) => SettlesKeepNil(st.stock, rid, order, TIMEOUT, false, true, t);
    case _ => BackgroundBystands(st, ttl, c);
  }

  lemma StoreStaysSound(st: Store, ttl: int, c: Call)
    requires Admissible(st, c) && ValidStore(st) && NoneArchived(st.stock) && NoNil(st.stock.reservations)
    ensures var st' := Step(st, ttl, c).0; ValidStore(st') && NoneArchived(st'.stock) && NoNil(st'.stock.reservations)
  {
    hide ValidStore, NoneArchived, NoNil, Step;
    StepGood(st, ttl, c);
    StepsKeepNil(st, ttl, c);
  }

  lemma SystemStaysSound(y: System, ttl: int, e: Event)
    requires SystemSound(y) && Possible(y, e)
    ensures SystemSound(Next(y, ttl, e))
  {
    hide Inv, ValidStore, NoneArchived, NoNil, Step, Do, Enabled;
    StepIsAct(y, ttl, e);
    ActKeeps(View(y), ActOf(y, ttl, e));
    if e.Remote? {
      StoreStaysSound(y.store, ttl, CallFor(e.th, e.rid, e.t, e.current));
    } else if e.Background? {
      StoreStaysSound(y.store, ttl, e.c);
    }
  }

  lemma SystemStarts()
    ensures SystemSound(START_SYSTEM) && View(START_SYSTEM) == START
  {
    StartHolds();
    EmptyValid(0);
  }

  lemma {:induction false} EverySystemSound(systems: seq<System>, events: seq<Event>, ttl: int, i: nat)
    requires IsSystemRun(systems, events, ttl) && i < |systems|
    ensures SystemSound(systems[i])
  {
    hide SystemSound, Possible, Next;
    if i == 0 {
      SystemStarts();
    } else {
      EverySystemSound(systems, events, ttl, i - 1);
      SystemStaysSound(systems[i - 1], ttl, events[i - 1]);
    }
  }

  /** A run of the composed system, seen without its stock, is a run of the saga. So all
      that holds of saga runs holds of the composed system, with the inventory's own
      settlement loops deciding every confirm, release and return. */
  lemma SystemRunsAreSagaRuns(systems: seq<System>, events: seq<Event>, ttl: int) returns (worlds: seq<World>, acts: seq<Act>)
    requires IsSystemRun(systems, events, ttl)
    ensures |worlds| == |systems| && forall i | 0 <= i < |systems| :: worlds[i] == View(systems[i])
    ensures Saga.IsRun(worlds, acts)
  {
    hide SystemSound, Possible, Next, ActOf, Enabled, Do;
    worlds := seq(|systems|, i requires 0 <= i < |systems| => View(systems[i]));
    acts := seq(|events|, i requires 0 <= i < |events| => ActOf(systems[i], ttl, events[i]));
    SystemStarts();
    forall i | 0 <= i < |acts| ensures Enabled(worlds[i], acts[i]) && worlds[i + 1] == Do(worlds[i], acts[i]) {
      EverySystemSound(systems, events, ttl, i);
      StepIsAct(systems[i], ttl, events[i]);
    }
  }

  /** End to end: in every state of every run, the portions a batch has sold are exactly
      those of confirmed reservations, and each of these belongs to an order that is paid,
      being paid, or being cancelled by the store; a paid order has such a reservation. */
  lemma SalesArePaidFor(systems: seq<System>, events: seq<Event>, ttl: int, i: nat)
    requires IsSystemRun(systems, events, ttl) && i < |systems|
    ensures var s := systems[i].store.stock;
            forall id | id in s.batches :: s.batches[id].sold == Held(s.reservations, CONFIRMED, id)
    ensures var s := systems[i].store.stock; var rows := systems[i].db.rows;
            forall x | x in s.reservations && s.reservations[x].status == CONFIRMED ::
              var o := s.reservations[x].order;
              o in rows && rows[o].reservation == x && rows[o].status in {PaymentConfirming, Paid, StoreCancelPending}
    ensures var s := systems[i].store.stock; var rows := systems[i].db.rows;
            forall o | o in rows ::
              rows[o].reservation in s.reservations && s.reservations[rows[o].reservation].order == o &&
              Agrees(rows[o], s.reservations[rows[o].reservation])
  {
    var worlds, acts := SystemRunsAreSagaRuns(systems, events, ttl);
    EverySystemSound(systems, events, ttl, i);
    SoundStore(systems[i]);
    var s, rows := systems[i].store.stock, systems[i].db.rows;
    forall id | id in s.batches ensures s.batches[id].sold == Held(s.reservations, CONFIRMED, id) {
      ValidAccounts(s, systems[i].store.clock, id);
    }
    hide IsSystemRun, Saga.IsRun, SystemSound, Inv, Valid, Agrees;
    forall x | x in s.reservations && s.reservations[x].status == CONFIRMED
      ensures var o := s.reservations[x].order;
              o in rows && rows[o].reservation == x && rows[o].status in {PaymentConfirming, Paid, StoreCancelPending}
    {
      SoldStockIsOwned(worlds, acts, i, x);
    }
    forall o | o in rows
      ensures rows[o].reservation in s.reservations && s.reservations[rows[o].reservation].order == o &&
              Agrees(rows[o], s.reservations[rows[o].reservation])
    {
      SagaAgreement(worlds, acts, i, o);
    }
  }
}
